/** Org settings: two sections managed independently, each with a marker
    (reconcileOrgSettings and the deletion branch in internal/controller/clavexorg_controller.go). */
module OrgSettings {
  import opened Prelude

  const MANAGED_BY := "k8s-operator"

  /** The compared fields of each section; the server-assigned org ID takes no part. */
  datatype PasswordPolicy = PasswordPolicy(
    minLength: int, requireUpper: bool, requireLower: bool, requireNumber: bool, requireSpecial: bool,
    maxAgeDays: int, historyCount: int)

  datatype RateLimits = RateLimits(
    maxAttemptsPerMinute: int, lockoutDurationSeconds: int, ipMaxAttemptsPerMinute: int)

  datatype OrgSpec = OrgSpec(passwordPolicy: Option<PasswordPolicy>, rateLimits: Option<RateLimits>)

  /** A live section: its values and who claims to manage them. */
  datatype Row<+V> = Row(values: V, managedBy: Option<string>)

  /** What someone else does to a section between two calls of a pass. */
  datatype Edit<+V> = Untouched | Became(row: Option<Row<V>>)

  function Edited<V>(row: Option<Row<V>>, e: Edit<V>): Option<Row<V>> {
    if e.Became? then e.row else row
  }

  /** What a section's calls meet: edits before its first call, the read, edits between the read and the
      write, and the write. A section that is released has no read. */
  datatype Calls<+V> = Calls(before: Edit<V>, get: Outcome, between: Edit<V>, write: Outcome) {
    predicate FaultFree() {
      get == Done && write == Done
    }
  }

  function ValuesOf<V>(row: Option<Row<V>>): Option<V> {
    if row.None? then None else Some(row.value.values)
  }

  predicate Marked<V>(row: Option<Row<V>>) {
    row.Some? && row.value.managedBy == Some(MANAGED_BY)
  }

  /** A live section without a row counts as diverged, too. */
  predicate Diverged<V(==)>(row: Option<Row<V>>, desired: Option<V>) {
    desired.Some? && ValuesOf(row) != desired
  }

  function Released<V>(row: Option<Row<V>>): Option<Row<V>> {
    if row.None? then None else Some(row.value.(managedBy := None))
  }

  /** What one section went through: the row left, the Put or Update sent, success, reported drift. */
  datatype SectionPass<+V> = SectionPass(row: Option<Row<V>>, wrote: bool, ok: bool, drifted: bool)

  predicate Settled<V(==)>(live: Option<Row<V>>, desired: Option<V>) {
    !Diverged(live, desired) && Marked(live)
  }

  /** The drift decision is taken on what was read; a write replaces whatever is there by then. */
  function SectionSpec<V(==)>(row: Option<Row<V>>, desired: Option<V>, c: Calls<V>): SectionPass<V> {
    var live := Edited(row, c.before);
    if desired.None? then
      // A missing row answers not-found, which counts as released.
      SectionPass(if c.write.TookEffect() then Released(live) else live, false, c.write == Done, false)
    else if c.get != Done then
      SectionPass(live, false, false, false)
    else if Settled(live, desired) then
      SectionPass(live, false, true, false)
    else
      SectionPass(if c.write.TookEffect() then Some(Row(desired.value, Some(MANAGED_BY))) else Edited(live, c.between),
                  true, c.write == Done, c.write == Done && Diverged(live, desired))
  }

  /** One settings resource of one org. */
  class SettingsApi<V(==)> {
    var row: Option<Row<V>>
    var writes: nat

    /** Someone else's edits. */
    method Meanwhile(e: Edit<V>)
      modifies this`row
      ensures row == Edited(old(row), e)
    {
      if e.Became? {
        row := e.row;
      }
    }

    method Put(values: V, out: Outcome) returns (ok: bool)
      modifies this
      ensures ok == (out == Done) && writes == old(writes) + 1
      ensures row == if out.TookEffect() then Some(Row(values, Some(MANAGED_BY))) else old(row)
    {
      writes := writes + 1;
      ok := out == Done;
      if out.TookEffect() {
        row := Some(Row(values, Some(MANAGED_BY)));
      }
    }

    method ReleaseManagedMarker(out: Outcome) returns (ok: bool)
      modifies this`row
      ensures ok == (out == Done)
      ensures row == if out.TookEffect() then Released(old(row)) else old(row)
    {
      ok := out == Done;
      if out.TookEffect() {
        row := Released(row);
      }
    }
  }

  /** reconcilePasswordPolicy and reconcileRateLimits, which differ only in their fields. */
  method ReconcileSection<V(==)>(api: SettingsApi<V>, desired: V, c: Calls<V>) returns (ok: bool, drifted: bool)
    modifies api
    ensures var p := SectionSpec(old(api.row), Some(desired), c);
            && api.row == p.row && ok == p.ok && (ok ==> drifted == p.drifted)
            && api.writes == old(api.writes) + (if p.wrote then 1 else 0)
    ensures var live := if c.before.Became? then c.before.row else old(api.row);
            && (ok ==> (drifted <==> live.None? || live.value.values != desired))
            && (ok ==> api.row == Some(Row(desired, Some("k8s-operator"))))
            && (api.writes != old(api.writes) <==>
                  c.get == Done
                  && (live.None? || live.value.values != desired || live.value.managedBy != Some("k8s-operator")))
  {
    ok, drifted := false, false;
    api.Meanwhile(c.before);
    if c.get != Done {
      return;
    }
    var live := api.row;
    var managed := live.Some? && live.value.managedBy.Some? && live.value.managedBy.value == MANAGED_BY;
    if live.Some? && live.value.values == desired && managed {
      return true, false;
    }
    api.Meanwhile(c.between);
    ok := api.Put(desired, c.write);
    drifted := live.None? || live.value.values != desired;
  }

  datatype Org = Org(policy: Option<Row<PasswordPolicy>>, limits: Option<Row<RateLimits>>)

  datatype OrgPass = OrgPass(org: Org, wrote: bool, ok: bool, drifted: bool)

  /** The second section is reached only when the first succeeded. */
  function OrgPassSpec(org: Org, spec: OrgSpec, policyCalls: Calls<PasswordPolicy>,
                       limitsCalls: Calls<RateLimits>): OrgPass {
    var p := SectionSpec(org.policy, spec.passwordPolicy, policyCalls);
    if !p.ok then OrgPass(Org(p.row, org.limits), p.wrote, false, false)
    else
      var l := SectionSpec(org.limits, spec.rateLimits, limitsCalls);
      OrgPass(Org(p.row, l.row), p.wrote || l.wrote, l.ok, l.ok && (p.drifted || l.drifted))
  }

  method ReconcileOrgSettings(policy: SettingsApi<PasswordPolicy>, limits: SettingsApi<RateLimits>, spec: OrgSpec,
                              policyCalls: Calls<PasswordPolicy>, limitsCalls: Calls<RateLimits>)
    returns (ok: bool, drifted: bool)
    modifies policy, limits
    ensures var p := OrgPassSpec(Org(old(policy.row), old(limits.row)), spec, policyCalls, limitsCalls);
            && Org(policy.row, limits.row) == p.org && ok == p.ok && drifted == p.drifted
            && (policy.writes + limits.writes == old(policy.writes) + old(limits.writes) <==> !p.wrote)
    ensures var livePolicy := if policyCalls.before.Became? then policyCalls.before.row else old(policy.row);
            var liveLimits := if limitsCalls.before.Became? then limitsCalls.before.row else old(limits.row);
            ok ==>
              (drifted <==>
                 (spec.passwordPolicy.Some? &&
                  (livePolicy.None? || livePolicy.value.values != spec.passwordPolicy.value))
                 || (spec.rateLimits.Some? &&
                     (liveLimits.None? || liveLimits.value.values != spec.rateLimits.value)))
    // The first error ends the pass.
    ensures (if spec.passwordPolicy.Some?
             then policyCalls.get != Done || (policy.writes > old(policy.writes) && policyCalls.write != Done)
             else policyCalls.write != Done) ==>
              !ok && limits.row == old(limits.row) && limits.writes == old(limits.writes)
    ensures (if spec.rateLimits.Some?
             then limitsCalls.get != Done || (limits.writes > old(limits.writes) && limitsCalls.write != Done)
             else limitsCalls.write != Done) ==> !ok
  {
    ok, drifted := false, false;
    if spec.passwordPolicy.Some? {
      var done, d := ReconcileSection(policy, spec.passwordPolicy.value, policyCalls);
      if !done {
        return;
      }
      drifted := d;
    } else {
      policy.Meanwhile(policyCalls.before);
      var released := policy.ReleaseManagedMarker(policyCalls.write);
      if !released {
        return;
      }
    }
    if spec.rateLimits.Some? {
      var done, d := ReconcileSection(limits, spec.rateLimits.value, limitsCalls);
      if !done {
        return false, false;
      }
      drifted := drifted || d;
    } else {
      limits.Meanwhile(limitsCalls.before);
      var released := limits.ReleaseManagedMarker(limitsCalls.write);
      if !released {
        return false, false;
      }
    }
    ok := true;
  }

  /** The remote half of deletion: only markers are touched. The finalizer is dropped on success, and
      also when the credentials are gone and nothing can be released (finalizeWithoutClient). */
  function OrgDeletionSpec(org: Org, credentials: bool, policyCalls: Calls<PasswordPolicy>,
                           limitsCalls: Calls<RateLimits>): OrgPass {
    if !credentials then OrgPass(org, false, true, false)
    else OrgPassSpec(org, OrgSpec(None, None), policyCalls, limitsCalls)
  }

  method FinalizeOrg(policy: SettingsApi<PasswordPolicy>, limits: SettingsApi<RateLimits>, credentials: bool,
                     policyCalls: Calls<PasswordPolicy>, limitsCalls: Calls<RateLimits>)
    returns (ok: bool)
    modifies policy`row, limits`row
    ensures var p := OrgDeletionSpec(Org(old(policy.row), old(limits.row)), credentials, policyCalls, limitsCalls);
            Org(policy.row, limits.row) == p.org && ok == p.ok
    ensures ok <==> !credentials || (policyCalls.write == Done && limitsCalls.write == Done)
    ensures !credentials ==> policy.row == old(policy.row) && limits.row == old(limits.row)
    ensures ok && credentials ==>
              && (policy.row.Some? ==> policy.row.value.managedBy.None?)
              && (limits.row.Some? ==> limits.row.value.managedBy.None?)
    ensures credentials && policyCalls.write != Done ==> limits.row == old(limits.row)
  {
    if !credentials {
      return true;
    }
    policy.Meanwhile(policyCalls.before);
    ok := policy.ReleaseManagedMarker(policyCalls.write);
    if ok {
      limits.Meanwhile(limitsCalls.before);
      ok := limits.ReleaseManagedMarker(limitsCalls.write);
    }
  }

  // ---- one pass ----

  const QUIET_POLICY: Calls<PasswordPolicy> := Calls(Untouched, Done, Untouched, Done)
  const QUIET_LIMITS: Calls<RateLimits> := Calls(Untouched, Done, Untouched, Done)

  /** After a fault-free pass, whatever others edit before and between its calls: each present section has
      the values of spec and the operator's marker, each absent one has its marker cleared and its values
      untouched; drift was reported exactly when the values of a present section differed as it was read;
      and a repeated, undisturbed pass writes nothing and sees no drift. */
  lemma FaultFreePassConverges(org: Org, spec: OrgSpec, policyCalls: Calls<PasswordPolicy>,
                               limitsCalls: Calls<RateLimits>)
    requires policyCalls.FaultFree() && limitsCalls.FaultFree()
    ensures var p := OrgPassSpec(org, spec, policyCalls, limitsCalls);
            var policy, limits := Edited(org.policy, policyCalls.before), Edited(org.limits, limitsCalls.before);
            && p.ok
            && SectionConverged(policy, spec.passwordPolicy, p.org.policy)
            && SectionConverged(limits, spec.rateLimits, p.org.limits)
            && (p.drifted <==> Diverged(policy, spec.passwordPolicy) || Diverged(limits, spec.rateLimits))
            && OrgPassSpec(p.org, spec, QUIET_POLICY, QUIET_LIMITS) == OrgPass(p.org, false, true, false)
  {
  }

  predicate SectionConverged<V(==)>(before: Option<Row<V>>, desired: Option<V>, after: Option<Row<V>>) {
    if desired.Some? then after == Some(Row(desired.value, Some(MANAGED_BY)))
    else ValuesOf(after) == ValuesOf(before) && (after.Some? ==> after.value.managedBy.None?)
  }

  /** Whatever fails, a successful pass reports drift exactly when a managed section's values differed
      as they were read. */
  lemma DriftIsExactOnSuccess(org: Org, spec: OrgSpec, policyCalls: Calls<PasswordPolicy>,
                              limitsCalls: Calls<RateLimits>)
    requires OrgPassSpec(org, spec, policyCalls, limitsCalls).ok
    ensures OrgPassSpec(org, spec, policyCalls, limitsCalls).drifted <==>
            Diverged(Edited(org.policy, policyCalls.before), spec.passwordPolicy)
            || Diverged(Edited(org.limits, limitsCalls.before), spec.rateLimits)
  {
  }

  /** A pass may fail and still have repaired a section, or never have reached it. */
  predicate StillDiverged<V(==)>(row: Option<Row<V>>, desired: Option<V>, c: Calls<V>) {
    var live := Edited(row, c.before);
    if c.get != Done || Settled(live, desired) then Diverged(live, desired)
    else !c.write.TookEffect() && Diverged(Edited(live, c.between), desired)
  }

  /** A failing pass reports no drift, and a section that it repaired is not reported later either: the
      report reaches the status with the retry if and only if some section still diverges. */
  lemma DriftReportAfterFailure(org: Org, spec: OrgSpec, policyCalls: Calls<PasswordPolicy>,
                                limitsCalls: Calls<RateLimits>)
    requires !OrgPassSpec(org, spec, policyCalls, limitsCalls).ok
    ensures var p := OrgPassSpec(org, spec, policyCalls, limitsCalls);
            && !p.drifted
            && (OrgPassSpec(p.org, spec, QUIET_POLICY, QUIET_LIMITS).drifted <==>
                  StillDiverged(org.policy, spec.passwordPolicy, policyCalls)
                  || (if SectionSpec(org.policy, spec.passwordPolicy, policyCalls).ok
                      then StillDiverged(org.limits, spec.rateLimits, limitsCalls)
                      else Diverged(org.limits, spec.rateLimits)))
  {
  }

  // ---- passes split at each call ----

  /** Where a pass stands: the call it makes next, with what it has read and decided so far. */
  datatype Phase =
    | Idle
    | AtPolicy(spec: OrgSpec)                                   // Get, or Release when the section is absent
    | PutPolicy(spec: OrgSpec, live: Option<Row<PasswordPolicy>>)
    | AtLimits(spec: OrgSpec, drifted: bool)
    | PutLimits(spec: OrgSpec, drifted: bool, liveLimits: Option<Row<RateLimits>>)
    | Reporting(spec: OrgSpec, drifted: bool)                   // success; the status is persisted next
    | DroppingPolicy                                            // the releases of a deletion
    | DroppingLimits

  datatype World = World(org: Org, phase: Phase)

  datatype Step =
    | EditPolicy(policy: Option<Row<PasswordPolicy>>)           // someone else
    | EditLimits(limits: Option<Row<RateLimits>>)
    | Begin(spec: OrgSpec)
    | BeginDeletion
    | Call(out: Outcome)                                        // the pass's next call
    | GiveUp                                                    // a crash, or credentials that are gone

  function Put<V>(row: Option<Row<V>>, desired: Option<V>, out: Outcome): Option<Row<V>> {
    if desired.Some? && out.TookEffect() then Some(Row(desired.value, Some(MANAGED_BY))) else row
  }

  function Release<V>(row: Option<Row<V>>, out: Outcome): Option<Row<V>> {
    if out.TookEffect() then Released(row) else row
  }

  function Next(w: World, s: Step): World {
    match s
    case EditPolicy(row) => w.(org := w.org.(policy := row))
    case EditLimits(row) => w.(org := w.org.(limits := row))
    case Begin(spec) => w.(phase := AtPolicy(spec))
    case BeginDeletion => w.(phase := DroppingPolicy)
    case GiveUp => w.(phase := Idle)
    case Call(out) => AfterCall(w, out)
  }

  function AfterCall(w: World, out: Outcome): World {
    match w.phase
    case Idle => w
    case AtPolicy(spec) =>
      if spec.passwordPolicy.None? then
        World(w.org.(policy := Release(w.org.policy, out)), if out == Done then AtLimits(spec, false) else Idle)
      else if out != Done then w.(phase := Idle)
      else if Settled(w.org.policy, spec.passwordPolicy) then w.(phase := AtLimits(spec, false))
      else w.(phase := PutPolicy(spec, w.org.policy))
    case PutPolicy(spec, live) =>
      World(w.org.(policy := Put(w.org.policy, spec.passwordPolicy, out)),
            if out == Done then AtLimits(spec, Diverged(live, spec.passwordPolicy)) else Idle)
    case AtLimits(spec, drifted) =>
      if spec.rateLimits.None? then
        World(w.org.(limits := Release(w.org.limits, out)), if out == Done then Reporting(spec, drifted) else Idle)
      else if out != Done then w.(phase := Idle)
      else if Settled(w.org.limits, spec.rateLimits) then w.(phase := Reporting(spec, drifted))
      else w.(phase := PutLimits(spec, drifted, w.org.limits))
    case PutLimits(spec, drifted, live) =>
      World(w.org.(limits := Put(w.org.limits, spec.rateLimits, out)),
            if out == Done then Reporting(spec, drifted || Diverged(live, spec.rateLimits)) else Idle)
    case Reporting(_, _) => w.(phase := Idle)
    case DroppingPolicy =>
      World(w.org.(policy := Release(w.org.policy, out)), if out == Done then DroppingLimits else Idle)
    case DroppingLimits =>
      World(w.org.(limits := Release(w.org.limits, out)), Idle)
  }

  function Run(w: World, steps: seq<Step>): World {
    if steps == [] then w else Next(Run(w, steps[..|steps| - 1]), steps[|steps| - 1])
  }

  // ---- conservation ----

  /** A step that sets the values of the password policy: an edit, or a Put that takes effect. */
  predicate SetsPolicy(w: World, s: Step) {
    s.EditPolicy? || (s.Call? && w.phase.PutPolicy? && w.phase.spec.passwordPolicy.Some? && s.out.TookEffect())
  }

  predicate SetsLimits(w: World, s: Step) {
    s.EditLimits? || (s.Call? && w.phase.PutLimits? && w.phase.spec.rateLimits.Some? && s.out.TookEffect())
  }

  lemma OnlyThatStepSetsPolicy(w: World, s: Step)
    ensures var values := ValuesOf(Next(w, s).org.policy);
            values == if !SetsPolicy(w, s) then ValuesOf(w.org.policy)
                      else if s.EditPolicy? then ValuesOf(s.policy) else w.phase.spec.passwordPolicy
  {
  }

  lemma OnlyThatStepSetsLimits(w: World, s: Step)
    ensures var values := ValuesOf(Next(w, s).org.limits);
            values == if !SetsLimits(w, s) then ValuesOf(w.org.limits)
                      else if s.EditLimits? then ValuesOf(s.limits) else w.phase.spec.rateLimits
  {
  }

  /** Values are conserved over every run, passes split at each call, with anyone's edits, faults and
      crashes in between: a section's live values are those set by the last step that set any, which is
      an outside edit, or a Put of a pass whose spec has the section and these values. Reads, releases,
      passes without the section and deletions never change them. */
  lemma {:induction false} ValuesAreConserved(w: World, steps: seq<Step>) returns (since: nat)
    ensures since <= |steps|
    ensures var values := ValuesOf(Run(w, steps).org.policy);
            if since == 0 then values == ValuesOf(w.org.policy)
            else
              var earlier := Run(w, steps[..since - 1]);
              && SetsPolicy(earlier, steps[since - 1])
              && values == if steps[since - 1].EditPolicy? then ValuesOf(steps[since - 1].policy)
                           else earlier.phase.spec.passwordPolicy
    ensures forall i :: since <= i < |steps| ==> !SetsPolicy(Run(w, steps[..i]), steps[i])
  {
    since := 0;
    if steps != [] {
      var n := |steps| - 1;
      since := ValuesAreConserved(w, steps[..n]);
      OnlyThatStepSetsPolicy(Run(w, steps[..n]), steps[n]);
      hide Next, SetsPolicy, ValuesOf;
      forall i | 0 <= i <= n ensures steps[..n][..i] == steps[..i] {
      }
      if SetsPolicy(Run(w, steps[..n]), steps[n]) {
        since := |steps|;
      }
    }
  }

  /** The same for the other section. */
  lemma {:induction false} LimitsAreConserved(w: World, steps: seq<Step>) returns (since: nat)
    ensures since <= |steps|
    ensures var values := ValuesOf(Run(w, steps).org.limits);
            if since == 0 then values == ValuesOf(w.org.limits)
            else
              var earlier := Run(w, steps[..since - 1]);
              && SetsLimits(earlier, steps[since - 1])
              && values == if steps[since - 1].EditLimits? then ValuesOf(steps[since - 1].limits)
                           else earlier.phase.spec.rateLimits
    ensures forall i :: since <= i < |steps| ==> !SetsLimits(Run(w, steps[..i]), steps[i])
  {
    since := 0;
    if steps != [] {
      var n := |steps| - 1;
      since := LimitsAreConserved(w, steps[..n]);
      OnlyThatStepSetsLimits(Run(w, steps[..n]), steps[n]);
      hide Next, SetsLimits, ValuesOf;
      forall i | 0 <= i <= n ensures steps[..n][..i] == steps[..i] {
      }
      if SetsLimits(Run(w, steps[..n]), steps[n]) {
        since := |steps|;
      }
    }
  }

  // ---- drift ----

  /** Step i answered the first call of a section, and the same pass has gone on since. */
  ghost predicate Answered(w: World, steps: seq<Step>, i: nat, phase: Phase) {
    && i < |steps| && steps[i] == Call(Done) && Run(w, steps[..i]).phase == phase
    && forall k :: i <= k < |steps| ==> steps[k].EditPolicy? || steps[k].EditLimits? || steps[k].Call?
  }

  lemma OneMoreStep(w: World, steps: seq<Step>, i: nat, phase: Phase)
    requires steps != [] && Answered(w, steps[..|steps| - 1], i, phase)
    requires var s := steps[|steps| - 1]; s.EditPolicy? || s.EditLimits? || s.Call?
    ensures Answered(w, steps, i, phase)
    ensures Run(w, steps[..i]) == Run(w, steps[..|steps| - 1][..i])
  {
    assert steps[..|steps| - 1][..i] == steps[..i];
  }

  predicate PastPolicy(p: Phase) {
    p.PutPolicy? || p.AtLimits? || p.PutLimits? || p.Reporting?
  }

  /** What a pass has decided about the password policy, it decided on the row that its Get answered. */
  lemma {:induction false} PolicyDriftIsReadOnce(w: World, steps: seq<Step>) returns (i: nat)
    requires w.phase.Idle?
    ensures var now := Run(w, steps).phase;
            PastPolicy(now) ==>
              && Answered(w, steps, i, AtPolicy(now.spec))
              && var live := Run(w, steps[..i]).org.policy;
                 && (now.PutPolicy? ==> now.live == live)
                 && (now.AtLimits? || now.PutLimits? ==> (now.drifted <==> Diverged(live, now.spec.passwordPolicy)))
                 && (now.Reporting? ==> (Diverged(live, now.spec.passwordPolicy) ==> now.drifted))
  {
    i := 0;
    if steps != [] && PastPolicy(Run(w, steps).phase) {
      var n := |steps| - 1;
      var before := Run(w, steps[..n]).phase;
      i := PolicyDriftIsReadOnce(w, steps[..n]);
      if PastPolicy(before) {
        OneMoreStep(w, steps, i, AtPolicy(before.spec));
      } else {
        i := n;
      }
    }
  }

  /** Over every run: a pass that succeeds reports drift if and only if the values of a present section
      differed from its spec in the row that this pass's own Get of the section answered, whatever
      others edited before, between and after its calls. */
  lemma {:induction false} DriftIsADifferenceAtTheGet(w: World, steps: seq<Step>) returns (i: nat, j: nat)
    requires w.phase.Idle?
    requires Run(w, steps).phase.Reporting? || Run(w, steps).phase.PutLimits?
    ensures var now := Run(w, steps).phase;
            && Answered(w, steps, i, AtPolicy(now.spec)) && i < j < |steps| && steps[j] == Call(Done)
            && Run(w, steps[..j]).phase.AtLimits? && Run(w, steps[..j]).phase.spec == now.spec
            && var policy, limits := Run(w, steps[..i]).org.policy, Run(w, steps[..j]).org.limits;
               && (now.PutLimits? ==>
                     now.liveLimits == limits && (now.drifted <==> Diverged(policy, now.spec.passwordPolicy)))
               && (now.Reporting? ==>
                     (now.drifted <==>
                        Diverged(policy, now.spec.passwordPolicy) || Diverged(limits, now.spec.rateLimits)))
  {
    var n := |steps| - 1;
    var before := Run(w, steps[..n]).phase;
    if before.AtLimits? {
      i := PolicyDriftIsReadOnce(w, steps[..n]);
      j := n;
    } else {
      i, j := DriftIsADifferenceAtTheGet(w, steps[..n]);
      assert steps[..n][..j] == steps[..j];
    }
    OneMoreStep(w, steps, i, AtPolicy(before.spec));
  }

  // ---- passes are runs ----

  function EditsPolicy(e: Edit<PasswordPolicy>): seq<Step> {
    if e.Became? then [EditPolicy(e.row)] else []
  }

  function EditsLimits(e: Edit<RateLimits>): seq<Step> {
    if e.Became? then [EditLimits(e.row)] else []
  }

  function PolicyScript(row: Option<Row<PasswordPolicy>>, spec: OrgSpec, c: Calls<PasswordPolicy>): seq<Step> {
    EditsPolicy(c.before) +
    if spec.passwordPolicy.None? then [Call(c.write)]
    else [Call(c.get)] +
         if SectionSpec(row, spec.passwordPolicy, c).wrote then EditsPolicy(c.between) + [Call(c.write)] else []
  }

  function LimitsScript(row: Option<Row<RateLimits>>, spec: OrgSpec, c: Calls<RateLimits>): seq<Step> {
    EditsLimits(c.before) +
    if spec.rateLimits.None? then [Call(c.write)]
    else [Call(c.get)] +
         if SectionSpec(row, spec.rateLimits, c).wrote then EditsLimits(c.between) + [Call(c.write)] else []
  }

  lemma {:induction false} RunBoth(w: World, a: seq<Step>, b: seq<Step>)
    ensures Run(w, a + b) == Run(Run(w, a), b)
  {
    if b == [] {
      assert a + b == a;
    } else {
      RunBoth(w, a, b[..|b| - 1]);
      assert (a + b)[..|a + b| - 1] == a + b[..|b| - 1];
    }
  }

  lemma RunOne(w: World, s: Step)
    ensures Run(w, [s]) == Next(w, s)
  {
    assert [s][..0] == [];
  }

  lemma PolicyEditRuns(w: World, e: Edit<PasswordPolicy>)
    ensures Run(w, EditsPolicy(e)) == w.(org := w.org.(policy := Edited(w.org.policy, e)))
  {
    if e.Became? {
      RunOne(w, EditPolicy(e.row));
    }
  }

  lemma PolicyWriteRuns(w: World, e: Edit<PasswordPolicy>, out: Outcome)
    ensures Run(w, EditsPolicy(e) + [Call(out)]) ==
            AfterCall(w.(org := w.org.(policy := Edited(w.org.policy, e))), out)
  {
    PolicyEditRuns(w, e);
    RunBoth(w, EditsPolicy(e), [Call(out)]);
    RunOne(Run(w, EditsPolicy(e)), Call(out));
  }

  lemma PolicyScriptRuns(w: World, spec: OrgSpec, c: Calls<PasswordPolicy>)
    requires w.phase == AtPolicy(spec)
    ensures var p := SectionSpec(w.org.policy, spec.passwordPolicy, c);
            Run(w, PolicyScript(w.org.policy, spec, c)) ==
            World(w.org.(policy := p.row), if p.ok then AtLimits(spec, p.drifted) else Idle)
  {
    hide Run;
    if spec.passwordPolicy.None? {
      PolicyWriteRuns(w, c.before, c.write);
    } else {
      PolicyWriteRuns(w, c.before, c.get);
      var w2 := Run(w, EditsPolicy(c.before) + [Call(c.get)]);
      if SectionSpec(w.org.policy, spec.passwordPolicy, c).wrote {
        PolicyWriteRuns(w2, c.between, c.write);
        RunBoth(w, EditsPolicy(c.before) + [Call(c.get)], EditsPolicy(c.between) + [Call(c.write)]);
        assert PolicyScript(w.org.policy, spec, c) ==
               EditsPolicy(c.before) + [Call(c.get)] + (EditsPolicy(c.between) + [Call(c.write)]);
      } else {
        assert PolicyScript(w.org.policy, spec, c) == EditsPolicy(c.before) + [Call(c.get)];
      }
    }
  }

  lemma LimitsEditRuns(w: World, e: Edit<RateLimits>)
    ensures Run(w, EditsLimits(e)) == w.(org := w.org.(limits := Edited(w.org.limits, e)))
  {
    if e.Became? {
      RunOne(w, EditLimits(e.row));
    }
  }

  lemma LimitsWriteRuns(w: World, e: Edit<RateLimits>, out: Outcome)
    ensures Run(w, EditsLimits(e) + [Call(out)]) ==
            AfterCall(w.(org := w.org.(limits := Edited(w.org.limits, e))), out)
  {
    LimitsEditRuns(w, e);
    RunBoth(w, EditsLimits(e), [Call(out)]);
    RunOne(Run(w, EditsLimits(e)), Call(out));
  }

  lemma LimitsScriptRuns(w: World, spec: OrgSpec, drifted: bool, c: Calls<RateLimits>)
    requires w.phase == AtLimits(spec, drifted)
    ensures var p := SectionSpec(w.org.limits, spec.rateLimits, c);
            Run(w, LimitsScript(w.org.limits, spec, c)) ==
            World(w.org.(limits := p.row), if p.ok then Reporting(spec, drifted || p.drifted) else Idle)
  {
    hide Run;
    if spec.rateLimits.None? {
      LimitsWriteRuns(w, c.before, c.write);
    } else {
      LimitsWriteRuns(w, c.before, c.get);
      var w2 := Run(w, EditsLimits(c.before) + [Call(c.get)]);
      if SectionSpec(w.org.limits, spec.rateLimits, c).wrote {
        LimitsWriteRuns(w2, c.between, c.write);
        RunBoth(w, EditsLimits(c.before) + [Call(c.get)], EditsLimits(c.between) + [Call(c.write)]);
        assert LimitsScript(w.org.limits, spec, c) ==
               EditsLimits(c.before) + [Call(c.get)] + (EditsLimits(c.between) + [Call(c.write)]);
      } else {
        assert LimitsScript(w.org.limits, spec, c) == EditsLimits(c.before) + [Call(c.get)];
      }
    }
  }

  function PassScript(org: Org, spec: OrgSpec, policyCalls: Calls<PasswordPolicy>,
                      limitsCalls: Calls<RateLimits>): seq<Step> {
    [Begin(spec)] + PolicyScript(org.policy, spec, policyCalls) +
    if SectionSpec(org.policy, spec.passwordPolicy, policyCalls).ok
    then LimitsScript(org.limits, spec, limitsCalls) else []
  }

  /** Every pass of ReconcileOrgSettings, with whatever is edited between its calls, is a run of the step
      system, and reports what that run reports; so the theorems about runs hold of it. */
  lemma PassIsARun(org: Org, spec: OrgSpec, policyCalls: Calls<PasswordPolicy>, limitsCalls: Calls<RateLimits>)
    ensures var p := OrgPassSpec(org, spec, policyCalls, limitsCalls);
            Run(World(org, Idle), PassScript(org, spec, policyCalls, limitsCalls)) ==
            World(p.org, if p.ok then Reporting(spec, p.drifted) else Idle)
  {
    hide Run, SectionSpec, PolicyScript, LimitsScript;
    var w := World(org, Idle);
    var policy := SectionSpec(org.policy, spec.passwordPolicy, policyCalls);
    var a := PolicyScript(org.policy, spec, policyCalls);
    RunOne(w, Begin(spec));
    RunBoth(w, [Begin(spec)], a);
    PolicyScriptRuns(World(org, AtPolicy(spec)), spec, policyCalls);
    if policy.ok {
      RunBoth(w, [Begin(spec)] + a, LimitsScript(org.limits, spec, limitsCalls));
      LimitsScriptRuns(World(org.(policy := policy.row), AtLimits(spec, policy.drifted)), spec, policy.drifted,
                       limitsCalls);
    } else {
      assert [Begin(spec)] + a + [] == [Begin(spec)] + a;
    }
  }

  /** So is every deletion that still has its credentials. */
  lemma DeletionIsARun(org: Org, policyCalls: Calls<PasswordPolicy>, limitsCalls: Calls<RateLimits>)
    ensures var p := OrgDeletionSpec(org, true, policyCalls, limitsCalls);
            var first := [BeginDeletion] + (EditsPolicy(policyCalls.before) + [Call(policyCalls.write)]);
            Run(World(org, Idle), first + if policyCalls.write != Done then []
                                          else EditsLimits(limitsCalls.before) + [Call(limitsCalls.write)])
            == World(p.org, Idle)
  {
    hide Run;
    var w := World(org, Idle);
    var a := EditsPolicy(policyCalls.before) + [Call(policyCalls.write)];
    var b := EditsLimits(limitsCalls.before) + [Call(limitsCalls.write)];
    RunOne(w, BeginDeletion);
    RunBoth(w, [BeginDeletion], a);
    PolicyWriteRuns(Next(w, BeginDeletion), policyCalls.before, policyCalls.write);
    if policyCalls.write == Done {
      RunBoth(w, [BeginDeletion] + a, b);
      LimitsWriteRuns(Run(w, [BeginDeletion] + a), limitsCalls.before, limitsCalls.write);
    } else {
      assert [BeginDeletion] + a + [] == [BeginDeletion] + a;
    }
  }
}
