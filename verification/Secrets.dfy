/** Secret references: reading credentials (internal/authsecret/authsecret.go) and persisting a
    generated client secret (writeClientSecret in internal/controller/clavexclient_controller.go). */
module Secrets {
  import opened Prelude

  const DEFAULT_API_KEY := "apiKey"
  const ORG_ID_KEY := "orgId"
  const DEFAULT_CLIENT_SECRET_KEY := "clientSecret"

  datatype SecretRef = SecretRef(name: string, namespace: string, key: string)
  datatype Location = Location(namespace: string, name: string)
  type Data = map<string, string>
  type Cluster = map<Location, Data>

  datatype Error = NoSecret(at: Location) | MissingKey(at: Location, key: string)
  datatype Result<+T> = Ok(value: T) | Err(error: Error)
  datatype Credentials = Credentials(apiKey: string, orgId: string)

  function LocationOf(ref: SecretRef, defaultNamespace: string): Location {
    Location(if ref.namespace == "" then defaultNamespace else ref.namespace, ref.name)
  }

  function KeyOf(ref: SecretRef, fallback: string): string {
    if ref.key == "" then fallback else ref.key
  }

  function ResolveAuthSecret(secrets: Cluster, ref: SecretRef, defaultNamespace: string): Result<Credentials> {
    var at := LocationOf(ref, defaultNamespace);
    var key := KeyOf(ref, DEFAULT_API_KEY);
    if at !in secrets then Err(NoSecret(at))
    else if key !in secrets[at] || secrets[at][key] == "" then Err(MissingKey(at, key))
    else if ORG_ID_KEY !in secrets[at] || secrets[at][ORG_ID_KEY] == "" then Err(MissingKey(at, ORG_ID_KEY))
    else Ok(Credentials(secrets[at][key], secrets[at][ORG_ID_KEY]))
  }

  /** An absent reference reads as the empty value; an empty value in a Secret is a value. */
  function ResolveSecretValue(secrets: Cluster, ref: Option<SecretRef>, defaultNamespace: string,
                              fallback: string): Result<string>
  {
    if ref.None? then Ok("")
    else
      var at := LocationOf(ref.value, defaultNamespace);
      var key := KeyOf(ref.value, fallback);
      if at !in secrets then Err(NoSecret(at))
      else if key !in secrets[at] then Err(MissingKey(at, key))
      else Ok(secrets[at][key])
  }

  function WithValue(secrets: Cluster, at: Location, key: string, value: string): Cluster {
    secrets[at := (if at in secrets then secrets[at] else map[])[key := value]]
  }

  class SecretStore {
    var secrets: Cluster

    /** Creates the Secret when it is missing, otherwise adds or replaces the one data key. */
    method WriteClientSecret(ref: SecretRef, crNamespace: string, value: string, get: Outcome, put: Outcome)
      returns (ok: bool)
      modifies this
      ensures ok == (get == Done && put == Done)
      ensures secrets ==
              if get == Done && put.TookEffect()
              then WithValue(old(secrets), LocationOf(ref, crNamespace), KeyOf(ref, DEFAULT_CLIENT_SECRET_KEY), value)
              else old(secrets)
      ensures get != Done || put == Failed ==> secrets == old(secrets)
      ensures ok ==>
                var at := Location(if ref.namespace != "" then ref.namespace else crNamespace, ref.name);
                var key := if ref.key != "" then ref.key else "clientSecret";
                && secrets.Keys == old(secrets).Keys + {at}
                && (forall l :: l in old(secrets) && l != at ==> secrets[l] == old(secrets)[l])
                && secrets[at] == (if at in old(secrets) then old(secrets)[at] else map[])[key := value]
    {
      var at := LocationOf(ref, crNamespace);
      var key := KeyOf(ref, DEFAULT_CLIENT_SECRET_KEY);
      if get != Done {
        return false;
      }
      if at !in secrets {
        if put.TookEffect() {
          secrets := secrets[at := map[key := value]];
        }
        return put == Done;
      }
      var data := secrets[at];
      data := data[key := value];
      if put.TookEffect() {
        secrets := secrets[at := data];
      }
      ok := put == Done;
    }
  }

  /** Where credentials come from, in plain terms: one Secret, named by the reference, in its namespace
      or else the CR's; the API key under the reference's data key or else "apiKey", the org ID always
      under "orgId", and neither may be missing or empty. */
  lemma CredentialsComeFromTheirKeys(secrets: Cluster, ref: SecretRef, ns: string)
    ensures var at := Location(if ref.namespace != "" then ref.namespace else ns, ref.name);
            var key := if ref.key != "" then ref.key else "apiKey";
            var r := ResolveAuthSecret(secrets, ref, ns);
            && (r.Ok? <==> at in secrets && key in secrets[at] && "orgId" in secrets[at]
                           && secrets[at][key] != "" && secrets[at]["orgId"] != "")
            && (r.Ok? ==> r.value.apiKey == secrets[at][key] && r.value.orgId == secrets[at]["orgId"])
            && (r.Err? ==> r.error.at == at && (r.error.NoSecret? <==> at !in secrets))
  {
  }

  /** A single value is missing only with its Secret or its data key; an empty one is a value. */
  lemma ValuesComeFromTheirKeys(secrets: Cluster, ref: SecretRef, ns: string, fallback: string)
    ensures var at := Location(if ref.namespace != "" then ref.namespace else ns, ref.name);
            var key := if ref.key != "" then ref.key else fallback;
            var r := ResolveSecretValue(secrets, Some(ref), ns, fallback);
            && (r.Ok? <==> at in secrets && key in secrets[at]) && (r.Ok? ==> r.value == secrets[at][key])
            && ResolveSecretValue(secrets, None, ns, fallback) == Ok("")
  {
  }

  /** Round trip: what was written is read back through the same reference, and every read through
      another location or key is what it was, except that the location now exists. */
  lemma WrittenSecretReadsBack(secrets: Cluster, ref: SecretRef, ns: string, value: string,
                               other: SecretRef, otherNs: string, fallback: string)
    ensures var at, key := LocationOf(ref, ns), KeyOf(ref, DEFAULT_CLIENT_SECRET_KEY);
            var after := WithValue(secrets, at, key, value);
            var at', key' := LocationOf(other, otherNs), KeyOf(other, fallback);
            && ResolveSecretValue(after, Some(ref), ns, DEFAULT_CLIENT_SECRET_KEY) == Ok(value)
            && ResolveSecretValue(after, Some(other), otherNs, fallback) ==
               if at' == at && key' == key then Ok(value)
               else if at' == at && at !in secrets then Err(MissingKey(at, key'))
               else ResolveSecretValue(secrets, Some(other), otherNs, fallback)
  {
  }

  /** Credentials that resolve keep resolving to the same pair after a client secret is persisted,
      if and only if the write misses their Secret, misses both of their keys, or rewrites a value
      that was already there. */
  lemma CredentialsSurviveExactly(secrets: Cluster, ref: SecretRef, ns: string, value: string,
                                  auth: SecretRef, authNs: string)
    requires ResolveAuthSecret(secrets, auth, authNs).Ok?
    ensures var at, key := LocationOf(ref, ns), KeyOf(ref, DEFAULT_CLIENT_SECRET_KEY);
            var after := WithValue(secrets, at, key, value);
            var authAt, apiKey := LocationOf(auth, authNs), KeyOf(auth, DEFAULT_API_KEY);
            ResolveAuthSecret(after, auth, authNs) == ResolveAuthSecret(secrets, auth, authNs) <==>
            at != authAt || (key != apiKey && key != ORG_ID_KEY) || value == secrets[authAt][key]
  {
    var at, key := LocationOf(ref, ns), KeyOf(ref, DEFAULT_CLIENT_SECRET_KEY);
    var authAt, apiKey := LocationOf(auth, authNs), KeyOf(auth, DEFAULT_API_KEY);
    if at == authAt {
      var data := WithValue(secrets, at, key, value)[at];
      assert data[key] == value;
    }
  }
}
