/** Auth-policy rules: name-keyed create and update
    (reconcileAuthPolicy in internal/controller/clavexauthpolicy_controller.go). */
module AuthPolicy {
  import opened Prelude
  import opened NameKeyed
  import opened AdminApi

  /** The comparison of rules is structural, so a nil list and an empty one must be told apart. */
  datatype GoSlice = Nil | Slice(elems: seq<string>)

  datatype HourRange = HourRange(from: int, to: int)

  /** The match criteria of the CR. */
  datatype SpecConditions = SpecConditions(
    ipCidrs: GoSlice, countries: GoSlice, notCountries: GoSlice, clientIds: GoSlice,
    mfaEnrolled: Option<bool>, newCountry: Option<bool>, daysOfWeek: GoSlice,
    hourRange: Option<HourRange>, lastLoginBefore: string)

  /** The same criteria as the Admin API carries them. */
  datatype PolicyConditions = PolicyConditions(
    ipCidrs: GoSlice, countries: GoSlice, notCountries: GoSlice, clientIds: GoSlice,
    mfaEnrolled: Option<bool>, newCountry: Option<bool>, daysOfWeek: GoSlice,
    hourRange: Option<HourRange>, lastLoginBefore: string)

  function BuildConditions(c: SpecConditions): PolicyConditions {
    PolicyConditions(c.ipCidrs, c.countries, c.notCountries, c.clientIds, c.mfaEnrolled, c.newCountry,
                     c.daysOfWeek,
                     if c.hourRange.Some? then Some(HourRange(c.hourRange.value.from, c.hourRange.value.to)) else None,
                     c.lastLoginBefore)
  }

  /** The criteria an administrator reads off a listed rule. */
  function CriteriaOf(p: PolicyConditions): SpecConditions {
    SpecConditions(p.ipCidrs, p.countries, p.notCountries, p.clientIds, p.mfaEnrolled, p.newCountry, p.daysOfWeek,
                   p.hourRange, p.lastLoginBefore)
  }

  /** Pins the field mapping: no criterion is lost, invented or swapped on the way to the Admin API, so
      an up-to-date rule shows exactly the criteria of its CR. */
  lemma UpToDateShowsTheSpec(live: Rule, spec: PolicySpec)
    ensures CriteriaOf(BuildConditions(spec.conditions)) == spec.conditions
    ensures UpToDate(live, spec) <==>
            live.priority == spec.priority && live.action == spec.action && live.enabled == spec.enabled
            && CriteriaOf(live.conditions) == spec.conditions
  {
  }

  datatype PolicySpec = PolicySpec(
    name: string, priority: int, action: string, enabled: bool, conditions: SpecConditions)

  datatype Rule = Rule(priority: int, action: string, enabled: bool, conditions: PolicyConditions)

  /** The server: the value `enabled` gets on Create, which does not send it, and how it lists
      stored conditions back. */
  datatype Server = Server(enabledDefault: bool, echo: PolicyConditions -> PolicyConditions)

  function Live(stored: Rule, server: Server): Rule {
    stored.(conditions := server.echo(stored.conditions))
  }

  predicate UpToDate(live: Rule, spec: PolicySpec) {
    && live.priority == spec.priority && live.action == spec.action && live.enabled == spec.enabled
    && live.conditions == BuildConditions(spec.conditions)
  }

  function CreatedRule(spec: PolicySpec, server: Server): Rule {
    Rule(spec.priority, spec.action, server.enabledDefault, BuildConditions(spec.conditions))
  }

  function UpdatedRule(spec: PolicySpec): Rule {
    Rule(spec.priority, spec.action, spec.enabled, BuildConditions(spec.conditions))
  }

  /** The pass as one over a name-keyed store: an up-to-date rule is left alone. */
  function PassOf(s: Store<Rule>, spec: PolicySpec, server: Server, list: Outcome, write: Outcome): Pass<Rule> {
    var e := Find(s.entries, spec.name);
    Reconcile(spec.name, CreatedRule(spec, server),
              if e.Some? && !UpToDate(Live(e.value.body, server), spec) then Some(UpdatedRule(spec)) else None,
              list, write)
  }

  /** Whether a pass whose listing succeeds sends a write. */
  predicate Writes(s: Store<Rule>, spec: PolicySpec, server: Server) {
    var e := Find(s.entries, spec.name);
    e.None? || !UpToDate(Live(e.value.body, server), spec)
  }

  /** `id` is None on failure; drift is reported, before the write, when an existing rule differs
      although its CR's generation was observed. */
  method ReconcileAuthPolicy(api: NamedApi<Rule>, spec: PolicySpec, sameSpec: bool, server: Server,
                             shuffle: Shuffler<Rule>, list: Outcome, write: Outcome)
    returns (id: Option<nat>, drifted: bool)
    requires Valid(api.store) && Permutes(shuffle)
    modifies api
    ensures var p := PassOf(old(api.store), spec, server, list, write);
            api.store == After(old(api.store), p) && id == Reported(old(api.store), p)
    ensures drifted <==> list == Done && Find(old(api.store).entries, spec.name).Some? && sameSpec
                         && Writes(old(api.store), spec, server)
    ensures Valid(api.store)
  {
    PassKeepsValid(api.store, PassOf(api.store, spec, server, list, write));
    if list != Done {
      return None, false;
    }
    var answer := shuffle(api.store.entries);
    var existing := FindByName(answer, spec.name);
    SameMembers(answer, api.store.entries);
    FindIgnoresOrder(api.store.entries, answer, spec.name);
    if existing.None? {
      id := api.Create(spec.name, CreatedRule(spec, server), write);
      return id, false;
    }
    if UpToDate(Live(existing.value.body, server), spec) {
      return Some(existing.value.id), false;
    }
    drifted := sameSpec;
    if write.TookEffect() {
      api.store := api.store.(entries := WithBody(api.store.entries, existing.value.id, UpdatedRule(spec)));
    }
    id := if write == Done then Some(existing.value.id) else None;
  }

  // ---- settling ----

  function AfterPass(s: Store<Rule>, spec: PolicySpec, server: Server): Store<Rule> {
    After(s, PassOf(s, spec, server, Done, Done))
  }

  predicate Holds(s: Store<Rule>, spec: PolicySpec, rule: Rule) {
    var e := Find(s.entries, spec.name);
    e.Some? && e.value.body == rule
  }

  lemma AfterAWrite(s: Store<Rule>, spec: PolicySpec, server: Server)
    requires Valid(s) && Writes(s, spec, server)
    ensures Holds(AfterPass(s, spec, server), spec,
                  if Find(s.entries, spec.name).None? then CreatedRule(spec, server) else UpdatedRule(spec))
  {
    var e := Find(s.entries, spec.name);
    if e.None? {
      FindInAppended(s.entries, Entry(s.next, spec.name, CreatedRule(spec, server)), spec.name);
    } else {
      FindInRewritten(s.entries, e.value.id, UpdatedRule(spec), spec.name);
    }
  }

  /** Two successful passes settle a rule, whatever the server makes of `enabled` on Create, exactly
      when the server lists the built conditions back as they were sent: if either pass wrote, the
      third pass is silent if and only if it does, and then the live rule is what spec asks for. */
  lemma SettlesInTwoPasses(s: Store<Rule>, spec: PolicySpec, server: Server)
    requires Valid(s)
    ensures var s1 := AfterPass(s, spec, server);
            var s2 := AfterPass(s1, spec, server);
            var built := BuildConditions(spec.conditions);
            && (Writes(s, spec, server) || Writes(s1, spec, server) ==>
                  (!Writes(s2, spec, server) <==> server.echo(built) == built))
            && (!Writes(s2, spec, server) ==>
                  AfterPass(s2, spec, server) == s2 && Find(s2.entries, spec.name).Some?
                  && UpToDate(Live(Find(s2.entries, spec.name).value.body, server), spec))
  {
    var s1 := AfterPass(s, spec, server);
    PassKeepsValid(s, PassOf(s, spec, server, Done, Done));
    if Writes(s, spec, server) {
      AfterAWrite(s, spec, server);
    }
    if Writes(s1, spec, server) {
      AfterAWrite(s1, spec, server);
    }
  }

  /** The second pass writes exactly when the server's default for `enabled` or its echo differs. */
  lemma SecondPassWritesExactly(s: Store<Rule>, spec: PolicySpec, server: Server)
    requires Valid(s) && Find(s.entries, spec.name).None?
    ensures var built := BuildConditions(spec.conditions);
            Writes(AfterPass(s, spec, server), spec, server) <==>
            server.enabledDefault != spec.enabled || server.echo(built) != built
  {
    AfterAWrite(s, spec, server);
  }

  lemma WritesAgain(s: Store<Rule>, spec: PolicySpec, server: Server)
    requires Valid(s) && Writes(s, spec, server)
    requires server.echo(BuildConditions(spec.conditions)) != BuildConditions(spec.conditions)
    ensures Valid(AfterPass(s, spec, server)) && Writes(AfterPass(s, spec, server), spec, server)
  {
    AfterAWrite(s, spec, server);
    PassKeepsValid(s, PassOf(s, spec, server, Done, Done));
  }

  function AfterPasses(s: Store<Rule>, spec: PolicySpec, server: Server, n: nat): Store<Rule> {
    if n == 0 then s else AfterPass(AfterPasses(s, spec, server, n - 1), spec, server)
  }

  /** Against any other server the rule never settles: from the first write on, every pass writes. */
  lemma {:induction false} OtherServersNeverSettle(s: Store<Rule>, spec: PolicySpec, server: Server, n: nat)
    requires Valid(s) && Writes(s, spec, server)
    requires server.echo(BuildConditions(spec.conditions)) != BuildConditions(spec.conditions)
    ensures Valid(AfterPasses(s, spec, server, n)) && Writes(AfterPasses(s, spec, server, n), spec, server)
  {
    hide AfterPass, Writes, Valid, BuildConditions;
    if n > 0 {
      OtherServersNeverSettle(s, spec, server, n - 1);
      WritesAgain(AfterPasses(s, spec, server, n - 1), spec, server);
    }
  }

  /** A CR with its rule: a pass reports drift when it must rewrite a rule although the CR's generation
      was observed, and a successful pass observes it. */
  datatype Tracked = Tracked(store: Store<Rule>, generation: nat, observedGeneration: nat)

  predicate ReportsDrift(t: Tracked, spec: PolicySpec, server: Server) {
    && Find(t.store.entries, spec.name).Some? && t.observedGeneration == t.generation
    && Writes(t.store, spec, server)
  }

  function Reconciled(t: Tracked, spec: PolicySpec, server: Server): Tracked {
    Tracked(AfterPass(t.store, spec, server), t.generation, t.generation)
  }

  function ReconciledTimes(t: Tracked, spec: PolicySpec, server: Server, n: nat): Tracked {
    if n == 0 then t else Reconciled(ReconciledTimes(t, spec, server, n - 1), spec, server)
  }

  lemma {:induction false} StoreOfReconciled(t: Tracked, spec: PolicySpec, server: Server, n: nat)
    ensures ReconciledTimes(t, spec, server, n).store == AfterPasses(t.store, spec, server, n)
    ensures ReconciledTimes(t, spec, server, n).generation == t.generation
  {
    hide AfterPass;
    if n > 0 {
      StoreOfReconciled(t, spec, server, n - 1);
    }
  }

  lemma RuleExistsAfterAWrite(s: Store<Rule>, spec: PolicySpec, server: Server)
    requires Valid(s) && Writes(s, spec, server)
    ensures Find(AfterPass(s, spec, server).entries, spec.name).Some?
  {
    AfterAWrite(s, spec, server);
  }

  /** So drift is reported forever, although no one else touches the rule: by every pass after the first
      that wrote. */
  lemma OtherServersReportDriftForever(t: Tracked, spec: PolicySpec, server: Server, n: nat)
    requires Valid(t.store) && Writes(t.store, spec, server) && n > 0
    requires server.echo(BuildConditions(spec.conditions)) != BuildConditions(spec.conditions)
    ensures ReportsDrift(ReconciledTimes(t, spec, server, n), spec, server)
  {
    hide AfterPass, Writes, Find, Valid, BuildConditions;
    OtherServersNeverSettle(t.store, spec, server, n - 1);
    OtherServersNeverSettle(t.store, spec, server, n);
    StoreOfReconciled(t, spec, server, n);
    RuleExistsAfterAWrite(AfterPasses(t.store, spec, server, n - 1), spec, server);
  }

  /** A server that lists absent lists as empty ones. */
  function EmptyForNil(s: GoSlice): GoSlice {
    if s.Nil? then Slice([]) else s
  }

  function EmptyLists(c: PolicyConditions): PolicyConditions {
    c.(ipCidrs := EmptyForNil(c.ipCidrs), countries := EmptyForNil(c.countries),
       notCountries := EmptyForNil(c.notCountries), clientIds := EmptyForNil(c.clientIds),
       daysOfWeek := EmptyForNil(c.daysOfWeek))
  }

  predicate LeavesAListOut(c: SpecConditions) {
    c.ipCidrs.Nil? || c.countries.Nil? || c.notCountries.Nil? || c.clientIds.Nil? || c.daysOfWeek.Nil?
  }

  /** Against it, a missing rule is written by every pass, forever, if and only if its spec leaves a
      list out. */
  lemma EmptyListServerNeverSettles(s: Store<Rule>, spec: PolicySpec, enabledDefault: bool)
    requires Valid(s) && Find(s.entries, spec.name).None?
    ensures (forall n :: Writes(AfterPasses(s, spec, Server(enabledDefault, EmptyLists), n), spec,
                                Server(enabledDefault, EmptyLists)))
            <==> LeavesAListOut(spec.conditions)
  {
    var server := Server(enabledDefault, EmptyLists);
    if LeavesAListOut(spec.conditions) {
      forall n ensures Writes(AfterPasses(s, spec, server, n), spec, server) {
        OtherServersNeverSettle(s, spec, server, n);
      }
    } else {
      SettlesInTwoPasses(s, spec, server);
      assert AfterPasses(s, spec, server, 1) == AfterPass(s, spec, server);
      assert !Writes(AfterPasses(s, spec, server, 2), spec, server);
    }
  }
}
