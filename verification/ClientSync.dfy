/** One synchronisation of a remote OIDC client with its ClavexClient spec
    (reconcileClient and clientUpToDate in internal/controller/clavexclient_controller.go). */
module ClientSync {
  import opened Prelude
  import opened StringSets

  datatype ClientSpec = ClientSpec(
    name: string, redirectUris: seq<string>, postLogoutRedirectUris: seq<string>,
    grantTypes: seq<string>, responseTypes: seq<string>, isPublic: bool, isActive: bool)

  datatype OidcClient = OidcClient(
    name: string, redirectUris: seq<string>, postLogoutRedirectUris: seq<string>,
    grantTypes: seq<string>, responseTypes: seq<string>, isPublic: bool, isActive: bool)

  /** The comparison skips responseTypes and isPublic, as the source does. */
  predicate UpToDate(live: OidcClient, spec: ClientSpec) {
    && live.name == spec.name
    && SameElements(live.redirectUris, spec.redirectUris)
    && SameElements(live.postLogoutRedirectUris, spec.postLogoutRedirectUris)
    && SameElements(live.grantTypes, spec.grantTypes)
    && live.isActive == spec.isActive
  }

  /** Effect of Clients.Create on the store. */
  function CreatedFrom(spec: ClientSpec): OidcClient {
    OidcClient(spec.name, spec.redirectUris, spec.postLogoutRedirectUris, spec.grantTypes,
               spec.responseTypes, spec.isPublic, spec.isActive)
  }

  /** Effect of Clients.Update: every field it sends is replaced; isPublic is not sent. */
  function PatchedWith(live: OidcClient, spec: ClientSpec): OidcClient {
    live.(name := spec.name, redirectUris := spec.redirectUris,
          postLogoutRedirectUris := spec.postLogoutRedirectUris, grantTypes := spec.grantTypes,
          responseTypes := spec.responseTypes, isActive := spec.isActive)
  }

  /** A GET answer: scalars are exact, list fields come back in any order. */
  predicate Renders(stored: OidcClient, answer: OidcClient) {
    && answer.name == stored.name
    && SameElements(answer.redirectUris, stored.redirectUris)
    && SameElements(answer.postLogoutRedirectUris, stored.postLogoutRedirectUris)
    && SameElements(answer.grantTypes, stored.grantTypes)
    && SameElements(answer.responseTypes, stored.responseTypes)
    && answer.isPublic == stored.isPublic
    && answer.isActive == stored.isActive
  }

  type Renderer = OidcClient -> OidcClient

  ghost predicate Faithful(render: Renderer) {
    forall c :: Renders(c, render(c))
  }

  /** The answer of Clients.Get. */
  datatype GetAnswer = GetError | NotFound | Found(client: OidcClient)

  /** What one reconcileClient call did when no one else acted: the store it left, the writes it
      sent, whether it succeeded, whether a Create succeeded (only then is there a new secret), and
      whether it reported drift (also when the Update that follows the report fails). */
  datatype Pass = Pass(stored: Option<OidcClient>, writes: nat, ok: bool, created: bool, drifted: bool)

  function PassSpec(stored: Option<OidcClient>, spec: ClientSpec, sameSpec: bool,
                    render: Renderer, get: Outcome, write: Outcome): Pass
  {
    if get != Done then
      Pass(stored, 0, false, false, false)
    else if stored.None? then
      Pass(if write.TookEffect() then Some(CreatedFrom(spec)) else None, 1, write == Done, write == Done, false)
    else if UpToDate(render(stored.value), spec) then
      Pass(stored, 0, true, false, false)
    else
      Pass(if write.TookEffect() then Some(PatchedWith(stored.value, spec)) else stored,
           1, write == Done, false, sameSpec)
  }

  /** A server may reorder lists at every read, so comparing with a rendering must be comparing
      with the store. */
  lemma RenderingKeepsUpToDate(stored: OidcClient, answer: OidcClient, spec: ClientSpec)
    requires Renders(stored, answer)
    ensures UpToDate(answer, spec) <==> UpToDate(stored, spec)
  {
  }

  /** A successful pass reaches a fixpoint: whatever order the server lists fields in at the two
      passes, and whatever would go wrong with a write, the next pass sends none and sees no drift. */
  lemma SuccessIsAFixpoint(stored: Option<OidcClient>, spec: ClientSpec, sameSpec: bool, sameSpec': bool,
                           render: Renderer, render': Renderer, write: Outcome, write': Outcome)
    requires Faithful(render) && Faithful(render')
    requires PassSpec(stored, spec, sameSpec, render, Done, write).ok
    ensures var after := PassSpec(stored, spec, sameSpec, render, Done, write).stored;
            && after.Some? && UpToDate(after.value, spec)
            && PassSpec(after, spec, sameSpec', render', Done, write') == Pass(after, 0, true, false, false)
  {
    var after := PassSpec(stored, spec, sameSpec, render, Done, write).stored;
    RenderingKeepsUpToDate(after.value, render'(after.value), spec);
    if stored.Some? {
      RenderingKeepsUpToDate(stored.value, render(stored.value), spec);
    }
  }

  /** A pass writes exactly when the stored client is missing or differs from spec, and it never
      changes whether an existing client is public. */
  lemma WritesOnlyToRepair(stored: Option<OidcClient>, spec: ClientSpec, sameSpec: bool,
                           render: Renderer, write: Outcome)
    requires Faithful(render)
    ensures var p := PassSpec(stored, spec, sameSpec, render, Done, write);
            && (p.writes == 0 <==> stored.Some? && UpToDate(stored.value, spec))
            && (p.drifted <==> sameSpec && stored.Some? && !UpToDate(stored.value, spec))
            && (stored.Some? ==> p.stored.Some? && p.stored.value.isPublic == stored.value.isPublic)
  {
    if stored.Some? {
      RenderingKeepsUpToDate(stored.value, render(stored.value), spec);
    }
  }

  /** Even a failing pass leaves either the old client or one that matches spec, and its retry,
      once fault-free, is a success. */
  lemma FailureIsRetrySafe(stored: Option<OidcClient>, spec: ClientSpec, sameSpec: bool,
                           render: Renderer, get: Outcome, write: Outcome)
    requires Faithful(render)
    ensures var p := PassSpec(stored, spec, sameSpec, render, get, write);
            && (p.stored == stored || (p.stored.Some? && UpToDate(p.stored.value, spec)))
            && PassSpec(p.stored, spec, sameSpec, render, Done, Done).ok
  {
  }

  /** What a success means, field by field: the live client has the name, the activity and, in some
      order, the lists of spec; a client just created or updated has its response types as well, and only
      a Create decides whether it is public. */
  lemma SuccessMatchesEveryField(stored: Option<OidcClient>, spec: ClientSpec, sameSpec: bool,
                                 render: Renderer, write: Outcome)
    requires Faithful(render)
    requires PassSpec(stored, spec, sameSpec, render, Done, write).ok
    ensures var p := PassSpec(stored, spec, sameSpec, render, Done, write);
            && p.stored.Some?
            && var c := p.stored.value;
               && c.name == spec.name && c.isActive == spec.isActive
               && multiset(c.redirectUris) == multiset(spec.redirectUris)
               && multiset(c.postLogoutRedirectUris) == multiset(spec.postLogoutRedirectUris)
               && multiset(c.grantTypes) == multiset(spec.grantTypes)
               && (p.writes > 0 ==> c.responseTypes == spec.responseTypes)
               && (p.writes == 0 ==> p.stored == stored)
               && c.isPublic == if stored.None? then spec.isPublic else stored.value.isPublic
  {
    if stored.Some? {
      RenderingKeepsUpToDate(stored.value, render(stored.value), spec);
    }
  }

  /** When an existing client is written, and when drift is reported: exactly when one of the five
      compared fields differs, up to list order, and for the report the generation was observed. */
  lemma WritesExactlyForADifference(stored: OidcClient, spec: ClientSpec, sameSpec: bool,
                                    render: Renderer, write: Outcome)
    requires Faithful(render)
    ensures var p := PassSpec(Some(stored), spec, sameSpec, render, Done, write);
            var differs := stored.name != spec.name || stored.isActive != spec.isActive
                           || multiset(stored.redirectUris) != multiset(spec.redirectUris)
                           || multiset(stored.postLogoutRedirectUris) != multiset(spec.postLogoutRedirectUris)
                           || multiset(stored.grantTypes) != multiset(spec.grantTypes);
            p.writes == (if differs then 1 else 0) && (p.drifted <==> sameSpec && differs)
  {
    RenderingKeepsUpToDate(stored, render(stored), spec);
  }

  /** Both at once, for any pass that succeeds. */
  lemma PassMeansFields(stored: Option<OidcClient>, spec: ClientSpec, sameSpec: bool,
                        render: Renderer, get: Outcome, write: Outcome)
    requires Faithful(render)
    ensures var p := PassSpec(stored, spec, sameSpec, render, get, write);
            p.ok ==>
              var differs := stored.Some? &&
                             (stored.value.name != spec.name || stored.value.isActive != spec.isActive
                              || multiset(stored.value.redirectUris) != multiset(spec.redirectUris)
                              || multiset(stored.value.postLogoutRedirectUris) !=
                                 multiset(spec.postLogoutRedirectUris)
                              || multiset(stored.value.grantTypes) != multiset(spec.grantTypes));
              && p.writes == (if stored.None? || differs then 1 else 0) && (p.drifted <==> differs && sameSpec)
              && p.stored.Some? && (p.created <==> stored.None?)
              && p.stored.value.name == spec.name && p.stored.value.isActive == spec.isActive
              && multiset(p.stored.value.redirectUris) == multiset(spec.redirectUris)
              && multiset(p.stored.value.postLogoutRedirectUris) == multiset(spec.postLogoutRedirectUris)
              && multiset(p.stored.value.grantTypes) == multiset(spec.grantTypes)
  {
    if PassSpec(stored, spec, sameSpec, render, get, write).ok {
      SuccessMatchesEveryField(stored, spec, sameSpec, render, write);
      if stored.Some? {
        WritesExactlyForADifference(stored.value, spec, sameSpec, render, write);
      }
    }
  }
}
