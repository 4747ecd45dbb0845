/** Resolving the LiveDNS personal access token for one challenge (`getGandiClient`).
    The JSON decoding of the solver config and the Kubernetes secret lookup are
    outside the model; they enter as a map of decode outcomes and a secret store value. */
module Credentials {
  import opened Basics

  /** `cmmeta.SecretKeySelector`: a secret's name and a key inside its data. */
  datatype SecretKeySelector = SecretKeySelector(name: string, key: string)

  /** `gandiDNSProviderConfig`, the per-issuer solver configuration. */
  datatype SolverConfig = SolverConfig(patSecretRef: SecretKeySelector)

  /** `extapi.JSON`: the still-encoded configuration carried by a challenge request. */
  datatype ConfigJson = ConfigJson(raw: seq<byte>)

  /** The outcomes of `json.Unmarshal` on the raw configurations a run meets: a raw
      configuration that is not a key fails to decode. */
  type Decoder = map<seq<byte>, SolverConfig>

  /** `json.Unmarshal` of a raw configuration into `gandiDNSProviderConfig`. */
  function Decode(decode: Decoder, raw: seq<byte>): Option<SolverConfig>
  {
    if raw in decode then Some(decode[raw]) else None
  }

  /** A Kubernetes secret's `Data`. */
  type SecretData = map<string, seq<byte>>

  /** What the Kubernetes client can fetch: secrets by (namespace, name). A pair that is
      absent stands for every failed `Get`, "not found" and API errors alike. */
  datatype SecretStore = SecretStore(secrets: map<(string, string), SecretData>)

  /** The LiveDNS client configuration: only the personal access token. */
  datatype LiveDnsClient = LiveDnsClient(personalAccessToken: seq<byte>)

  /** The ways credential resolution fails, one per early return. */
  datatype CredentialError =
    | NoConfiguration
    | ConfigDecodeFailed
    | SecretUnavailable(secretName: string)
    | SecretKeyMissing(key: string, secretName: string, namespace: string)

  /** The secret a decoded configuration points at, if the store can deliver it. */
  function FetchSecret(store: SecretStore, namespace: string, ref: SecretKeySelector): Option<SecretData>
  {
    if (namespace, ref.name) in store.secrets then Some(store.secrets[(namespace, ref.name)]) else None
  }

  /** `getGandiClient`: config present, decodable, secret found, key present, in that order. */
  function GetGandiClient(store: SecretStore, cfgJson: Option<ConfigJson>, decode: Decoder, namespace: string)
    : (r: Result<LiveDnsClient, CredentialError>)
    // an absent configuration is reported before anything is decoded or fetched
    ensures cfgJson.None? ==> r == Failure(NoConfiguration)
    ensures cfgJson.Some? && Decode(decode, cfgJson.value.raw).None? ==> r == Failure(ConfigDecodeFailed)
    // a secret the store cannot deliver is reported as unavailable, naming it
    ensures cfgJson.Some? && Decode(decode, cfgJson.value.raw).Some? ==>
              var ref := Decode(decode, cfgJson.value.raw).value.patSecretRef;
              FetchSecret(store, namespace, ref).None? ==> r == Failure(SecretUnavailable(ref.name))
    // a delivered secret without the configured key gives the distinct key error
    ensures cfgJson.Some? && Decode(decode, cfgJson.value.raw).Some? ==>
              var ref := Decode(decode, cfgJson.value.raw).value.patSecretRef;
              FetchSecret(store, namespace, ref).Some? && ref.key !in FetchSecret(store, namespace, ref).value ==>
                r == Failure(SecretKeyMissing(ref.key, ref.name, namespace))
    // and conversely each of those errors arises only from its own cause
    ensures r.Failure? && r.error.SecretKeyMissing? ==>
              && cfgJson.Some? && Decode(decode, cfgJson.value.raw).Some?
              && var ref := Decode(decode, cfgJson.value.raw).value.patSecretRef;
                 && FetchSecret(store, namespace, ref).Some?
                 && ref.key !in FetchSecret(store, namespace, ref).value
                 && r.error == SecretKeyMissing(ref.key, ref.name, namespace)
    ensures r.Failure? && r.error.SecretUnavailable? ==>
              && cfgJson.Some? && Decode(decode, cfgJson.value.raw).Some?
              && var ref := Decode(decode, cfgJson.value.raw).value.patSecretRef;
                 && FetchSecret(store, namespace, ref).None?
                 && r.error == SecretUnavailable(ref.name)
    // the token is the secret's bytes under the configured key, unchanged
    ensures r.Success? ==>
              && cfgJson.Some? && Decode(decode, cfgJson.value.raw).Some?
              && var ref := Decode(decode, cfgJson.value.raw).value.patSecretRef;
                 && FetchSecret(store, namespace, ref).Some?
                 && ref.key in FetchSecret(store, namespace, ref).value
                 && r.value.personalAccessToken == FetchSecret(store, namespace, ref).value[ref.key]
  {
    if cfgJson.None? then Failure(NoConfiguration)
    else
      match Decode(decode, cfgJson.value.raw)
      case None => Failure(ConfigDecodeFailed)
      case Some(cfg) =>
        var ref := cfg.patSecretRef;
        match FetchSecret(store, namespace, ref)
        case None => Failure(SecretUnavailable(ref.name))
        case Some(data) =>
          if ref.key !in data then Failure(SecretKeyMissing(ref.key, ref.name, namespace))
          else Success(LiveDnsClient(data[ref.key]))
  }

  /** Success exactly when every step finds what it looks for, and the token is then the
      secret's bytes under the configured key. */
  lemma ClientResolvedIff(store: SecretStore, cfgJson: Option<ConfigJson>, decode: Decoder, namespace: string)
    ensures GetGandiClient(store, cfgJson, decode, namespace).Success? <==>
              && cfgJson.Some?
              && Decode(decode, cfgJson.value.raw).Some?
              && var ref := Decode(decode, cfgJson.value.raw).value.patSecretRef;
                 && (namespace, ref.name) in store.secrets
                 && ref.key in store.secrets[(namespace, ref.name)]
    ensures GetGandiClient(store, cfgJson, decode, namespace).Success? ==>
              var ref := Decode(decode, cfgJson.value.raw).value.patSecretRef;
              GetGandiClient(store, cfgJson, decode, namespace).value.personalAccessToken
                == store.secrets[(namespace, ref.name)][ref.key]
  {
  }

  /** Without a configuration the secret store is never consulted: any two stores give
      the same configuration error. */
  lemma AbsentConfigIgnoresStore(s1: SecretStore, s2: SecretStore, decode: Decoder, namespace: string)
    ensures GetGandiClient(s1, None, decode, namespace) == GetGandiClient(s2, None, decode, namespace)
                                                       == Failure(NoConfiguration)
  {
  }
}
