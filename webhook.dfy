/** The cert-manager DNS-01 solver for Gandi LiveDNS: `Present` publishes the challenge
    TXT rrset, `CleanUp` removes it. Each operation resolves credentials, splits the
    challenge name, reads the rrset, and then writes or deletes it. */
module Webhook {
  import opened Basics
  import opened GoStrings
  import opened ChallengeNames
  import opened Credentials
  import opened LiveDns

  /** The smallest TTL LiveDNS accepts; every upsert asks for exactly this. */
  const GandiMinTtl := 300

  /** The rrset type of an ACME DNS-01 challenge. */
  const TxtType := "TXT"

  /** The fields of cert-manager's `ChallengeRequest` that the solver reads. */
  datatype ChallengeRequest = ChallengeRequest(
    key: string,
    resolvedFqdn: string,
    resolvedZone: string,
    resourceNamespace: string,
    config: Option<ConfigJson>)

  /** How the service answers the calls of one operation: whether the read fails, what
      the update answers, whether the delete fails. */
  datatype Replies = Replies(readFails: bool, update: UpdateReply, deleteFails: bool)

  datatype Operation = Presenting | CleaningUp

  /** The branch `Present` took: it changes an existing rrset or creates a new one. */
  datatype Upsert = Change | Create

  /** Every error the solver returns, one constructor per `return fmt.Errorf(...)`. A
      constructor carries the solver's own values (status code, domain, secret name, key,
      namespace), never the error a library call returned. */
  datatype SolverError =
    | KubeClientFailed
    | ClientUnavailable(cause: CredentialError)
    | RecordCheckFailed(during: Operation)
    | UpsertFailed(op: Upsert)
    | UpsertRejected(op: Upsert, code: int, domain: string)
    | RemoveFailed

  /** What one operation returns, the rrsets it leaves, and the calls it makes. */
  datatype Outcome = Outcome(err: Option<SolverError>, records: Records, calls: seq<Call>)

  /** The rrset a challenge is about: `(domain, challengeFQDN, "TXT")`. */
  function ChallengeKey(ch: ChallengeRequest): RecordKey
  {
    var n := SplitChallengeFqdn(ch.resolvedFqdn, ch.resolvedZone);
    RecordKey(n.domain, n.entry, TxtType)
  }

  /** For an FQDN inside its zone, the rrset is a TXT rrset whose name, a dot and the zone
      spell the FQDN. */
  lemma ChallengeKeyInZone(ch: ChallengeRequest)
    requires HasChallengeName(ch)
    ensures ChallengeKey(ch).rrsetType == TxtType
    ensures ChallengeKey(ch).name + "." + ch.resolvedZone == ch.resolvedFqdn
  {
    SplitRecomposes(ch.resolvedFqdn, ch.resolvedZone);
  }

  /** The FQDN is a name inside the zone, `<name>.<zone>`. */
  predicate HasChallengeName(ch: ChallengeRequest) {
    HasSuffix(ch.resolvedFqdn, "." + ch.resolvedZone)
  }

  /** The rrset `Present` writes at `key`: the challenge value alone, at the minimum TTL. */
  function ChallengeRecord(key: RecordKey, value: string): DomainRecord
  {
    DomainRecord(key.name, [value], GandiMinTtl)
  }

  /** The effect of `Present` on rrsets `records` when credentials come from `store`. */
  function PresentOutcome(store: SecretStore, decode: Decoder, ch: ChallengeRequest,
                          records: Records, replies: Replies): Outcome
  {
    match GetGandiClient(store, ch.config, decode, ch.resourceNamespace)
    case Failure(e) => Outcome(Some(ClientUnavailable(e)), records, [])
    case Success(_) => PresentWithClient(ChallengeKey(ch), ch.key, records, replies)
  }

  /** `Present` of `value` at `key` once a LiveDNS client exists: read, then upsert in
      either branch. */
  function PresentWithClient(key: RecordKey, value: string, records: Records, replies: Replies): (o: Outcome)
    ensures o.err.None? <==> !replies.readFails && replies.update == Status(200)
    ensures o.err.None? ==> o.records == records[key := ChallengeRecord(key, value)]
    ensures o.err.Some? ==> o.records == records
    ensures o.calls == if replies.readFails then [GetCall(key)]
                       else [GetCall(key), UpdateCall(key, GandiMinTtl, [value])]
    ensures o.err.Some? && o.err.value.UpsertRejected? ==>
              replies.update == Status(o.err.value.code) && o.err.value.domain == key.domain
  {
    if replies.readFails then Outcome(Some(RecordCheckFailed(Presenting)), records, [GetCall(key)])
    else
      var op := if Found(Lookup(records, key)) then Change else Create;
      var calls := [GetCall(key), UpdateCall(key, GandiMinTtl, [value])];
      match replies.update
      case TransportError => Outcome(Some(UpsertFailed(op)), records, calls)
      case Status(code) =>
        if code != 200 then Outcome(Some(UpsertRejected(op, code, key.domain)), records, calls)
        else Outcome(None, records[key := ChallengeRecord(key, value)], calls)
  }

  /** The effect of `CleanUp` on rrsets `records` when credentials come from `store`. */
  function CleanUpOutcome(store: SecretStore, decode: Decoder, ch: ChallengeRequest,
                          records: Records, replies: Replies): Outcome
  {
    match GetGandiClient(store, ch.config, decode, ch.resourceNamespace)
    case Failure(e) => Outcome(Some(ClientUnavailable(e)), records, [])
    case Success(_) => CleanUpWithClient(ChallengeKey(ch), records, replies)
  }

  /** `CleanUp` at `key` once a LiveDNS client exists: read, then delete only what was found. */
  function CleanUpWithClient(key: RecordKey, records: Records, replies: Replies): (o: Outcome)
    ensures o.err.None? <==> !replies.readFails && (!Found(Lookup(records, key)) || !replies.deleteFails)
    ensures DeleteCall(key) in o.calls <==> !replies.readFails && Found(Lookup(records, key))
    ensures o.calls == if !replies.readFails && Found(Lookup(records, key))
                       then [GetCall(key), DeleteCall(key)] else [GetCall(key)]
    ensures o.err.None? ==> o.records == if Found(Lookup(records, key)) then records - {key} else records
    ensures o.err.Some? ==> o.records == records
  {
    if replies.readFails then Outcome(Some(RecordCheckFailed(CleaningUp)), records, [GetCall(key)])
    else if !Found(Lookup(records, key)) then Outcome(None, records, [GetCall(key)])
    else if replies.deleteFails then Outcome(Some(RemoveFailed), records, [GetCall(key), DeleteCall(key)])
    else Outcome(None, records - {key}, [GetCall(key), DeleteCall(key)])
  }

  /** A Kubernetes clientset: a handle to the cluster's API. What it reaches is the
      cluster's state at the moment of each call, passed to the operations as a
      `SecretStore`, never a copy kept in the solver. */
  datatype KubeClient = KubeClient

  /** `gandiDNSProviderSolver`: its only state is the Kubernetes client, set by `Initialize`. */
  class GandiSolver {
    var client: Option<KubeClient>

    constructor ()
      ensures client == None
    {
      client := None;
    }

    /** The solver's name under the webhook's API group. */
    function Name(): (n: string)
      ensures n == "gandi"
    {
      "gandi"
    }

    /** `Initialize`: keep the Kubernetes client built from the host's configuration,
        or report that none could be built and keep the old one. */
    method Initialize(built: Option<KubeClient>) returns (err: Option<SolverError>)
      modifies this
      ensures err.None? <==> built.Some?
      ensures err.Some? ==> err.value == KubeClientFailed
      ensures client == if built.Some? then built else old(client)
    {
      if built.None? {
        return Some(KubeClientFailed);
      }
      client := built;
      return None;
    }

    /** `Present`: ensure the challenge rrset holds exactly `[ch.key]`. The found and
        not-found branches issue the same update and differ only in their error. The
        LiveDNS client built from the token is not modelled further: `dns` is the account
        it reaches, and a rejected token shows as failed replies. `secrets` is what the
        Kubernetes client finds in the cluster at this call. */
    method Present(ch: ChallengeRequest, decode: Decoder, secrets: SecretStore, dns: LiveDnsService,
                   replies: Replies)
      returns (err: Option<SolverError>)
      requires client.Some? || ch.config.None? || Decode(decode, ch.config.value.raw).None?
      modifies dns
      ensures var o := PresentOutcome(secrets, decode, ch, old(dns.records), replies);
              err == o.err && dns.records == o.records && dns.calls == old(dns.calls) + o.calls
    {
      var gandiClient := GetGandiClient(secrets, ch.config, decode, ch.resourceNamespace);
      if gandiClient.Failure? {
        return Some(ClientUnavailable(gandiClient.error));
      }
      var n := SplitChallengeFqdn(ch.resolvedFqdn, ch.resolvedZone);
      var domainRecord := dns.GetDomainRecordByNameAndType(n.domain, n.entry, TxtType, replies.readFails);
      if domainRecord.None? {
        return Some(RecordCheckFailed(Presenting));
      }
      var recordVal := [ch.key];
      if Found(domainRecord.value) {
        var resp := dns.UpdateDomainRecordByNameAndType(n.domain, n.entry, TxtType, GandiMinTtl, recordVal, replies.update);
        if resp.TransportError? {
          return Some(UpsertFailed(Change));
        }
        if resp.code != 200 {
          return Some(UpsertRejected(Change, resp.code, n.domain));
        }
      } else {
        var resp := dns.UpdateDomainRecordByNameAndType(n.domain, n.entry, TxtType, GandiMinTtl, recordVal, replies.update);
        if resp.TransportError? {
          return Some(UpsertFailed(Create));
        }
        if resp.code != 200 {
          return Some(UpsertRejected(Create, resp.code, n.domain));
        }
      }
      return None;
    }

    /** `CleanUp`: delete the challenge rrset if the read finds one; otherwise succeed
        without a delete. `secrets` is what the Kubernetes client finds at this call. */
    method CleanUp(ch: ChallengeRequest, decode: Decoder, secrets: SecretStore, dns: LiveDnsService,
                   replies: Replies)
      returns (err: Option<SolverError>)
      requires client.Some? || ch.config.None? || Decode(decode, ch.config.value.raw).None?
      modifies dns
      ensures var o := CleanUpOutcome(secrets, decode, ch, old(dns.records), replies);
              err == o.err && dns.records == o.records && dns.calls == old(dns.calls) + o.calls
    {
      var gandiClient := GetGandiClient(secrets, ch.config, decode, ch.resourceNamespace);
      if gandiClient.Failure? {
        return Some(ClientUnavailable(gandiClient.error));
      }
      var n := SplitChallengeFqdn(ch.resolvedFqdn, ch.resolvedZone);
      var domainRecord := dns.GetDomainRecordByNameAndType(n.domain, n.entry, TxtType, replies.readFails);
      if domainRecord.None? {
        return Some(RecordCheckFailed(CleaningUp));
      }
      if Found(domainRecord.value) {
        var ok := dns.DeleteDomainRecord(n.domain, n.entry, TxtType, replies.deleteFails);
        if !ok {
          return Some(RemoveFailed);
        }
      }
      return None;
    }
  }
}
