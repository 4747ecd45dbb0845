/** What `Present` and `CleanUp` guarantee, stated over their outcome functions. */
module WebhookProperties {
  import opened Basics
  import opened ChallengeNames
  import opened Credentials
  import opened LiveDns
  import opened Webhook

  /** Credential resolution succeeds for this request. */
  predicate ClientResolves(store: SecretStore, decode: Decoder, ch: ChallengeRequest) {
    GetGandiClient(store, ch.config, decode, ch.resourceNamespace).Success?
  }

  /** Once credentials resolve, `Present` is its provider step at the challenge rrset;
      otherwise it fails before any call. */
  lemma PresentSteps(store: SecretStore, decode: Decoder, ch: ChallengeRequest,
                     records: Records, replies: Replies)
    ensures ClientResolves(store, decode, ch) ==>
              PresentOutcome(store, decode, ch, records, replies)
                == PresentWithClient(ChallengeKey(ch), ch.key, records, replies)
    ensures !ClientResolves(store, decode, ch) ==>
              PresentOutcome(store, decode, ch, records, replies)
                == Outcome(Some(ClientUnavailable(GetGandiClient(store, ch.config, decode, ch.resourceNamespace).error)),
                           records, [])
  {
  }

  /** The same split for `CleanUp`. */
  lemma CleanUpSteps(store: SecretStore, decode: Decoder, ch: ChallengeRequest,
                     records: Records, replies: Replies)
    ensures ClientResolves(store, decode, ch) ==>
              CleanUpOutcome(store, decode, ch, records, replies)
                == CleanUpWithClient(ChallengeKey(ch), records, replies)
    ensures !ClientResolves(store, decode, ch) ==>
              CleanUpOutcome(store, decode, ch, records, replies)
                == Outcome(Some(ClientUnavailable(GetGandiClient(store, ch.config, decode, ch.resourceNamespace).error)),
                           records, [])
  {
  }

  // ---------------------------------------------------------------- Present

  /** `Present` succeeds exactly when credentials resolve, the read succeeds and the
      update is answered 200. */
  lemma PresentSucceedsIff(store: SecretStore, decode: Decoder, ch: ChallengeRequest,
                           records: Records, replies: Replies)
    ensures PresentOutcome(store, decode, ch, records, replies).err.None? <==>
              ClientResolves(store, decode, ch) && !replies.readFails && replies.update == Status(200)
  {
    PresentSteps(store, decode, ch, records, replies);
  }

  /** A status other than 200 is an error that carries that status and the domain. */
  lemma PresentRejectsNon200(store: SecretStore, decode: Decoder, ch: ChallengeRequest,
                             records: Records, replies: Replies)
    requires ClientResolves(store, decode, ch) && !replies.readFails
    requires replies.update.Status? && replies.update.code != 200
    ensures var o := PresentOutcome(store, decode, ch, records, replies);
            && o.err.Some? && o.err.value.UpsertRejected?
            && o.err.value.code == replies.update.code
            && o.err.value.domain == ChallengeKey(ch).domain
            && o.records == records
  {
    PresentSteps(store, decode, ch, records, replies);
  }

  /** Every upsert `Present` issues, in the found and in the not-found branch alike, asks
      for TTL `GandiMinTtl` and the single value `[ch.key]` at the challenge rrset; once
      the read succeeds that upsert is always issued, after exactly one read. */
  lemma PresentUpsertsMinTtl(store: SecretStore, decode: Decoder, ch: ChallengeRequest,
                             records: Records, replies: Replies)
    ensures var o := PresentOutcome(store, decode, ch, records, replies);
            forall i :: 0 <= i < |o.calls| && o.calls[i].UpdateCall? ==>
              o.calls[i] == UpdateCall(ChallengeKey(ch), GandiMinTtl, [ch.key])
    ensures ClientResolves(store, decode, ch) && !replies.readFails ==>
              PresentOutcome(store, decode, ch, records, replies).calls
                == [GetCall(ChallengeKey(ch)), UpdateCall(ChallengeKey(ch), GandiMinTtl, [ch.key])]
  {
    PresentSteps(store, decode, ch, records, replies);
    var key := ChallengeKey(ch);
    var o := PresentOutcome(store, decode, ch, records, replies);
    if !ClientResolves(store, decode, ch) {
      assert o.calls == [];
    } else if replies.readFails {
      assert o.calls == [GetCall(key)];
    } else {
      assert o.calls == [GetCall(key), UpdateCall(key, GandiMinTtl, [ch.key])];
    }
  }

  /** After a successful `Present` the challenge rrset holds exactly `[ch.key]` at the
      minimum TTL, whatever values it held before, and no other rrset changed. */
  lemma PresentWritesChallenge(store: SecretStore, decode: Decoder, ch: ChallengeRequest,
                               records: Records, replies: Replies)
    requires PresentOutcome(store, decode, ch, records, replies).err.None?
    ensures var o := PresentOutcome(store, decode, ch, records, replies);
            && ChallengeKey(ch) in o.records
            && o.records[ChallengeKey(ch)].rrsetValues == [ch.key]
            && o.records[ChallengeKey(ch)].rrsetTtl == GandiMinTtl
            && o.records - {ChallengeKey(ch)} == records - {ChallengeKey(ch)}
  {
    PresentSucceedsIff(store, decode, ch, records, replies);
    PresentSteps(store, decode, ch, records, replies);
    var key := ChallengeKey(ch);
    var o := PresentOutcome(store, decode, ch, records, replies);
    assert o.records == records[key := ChallengeRecord(key, ch.key)];
  }

  /** A failed `Present` leaves every rrset as it was. */
  lemma PresentFailureKeepsRecords(store: SecretStore, decode: Decoder, ch: ChallengeRequest,
                                   records: Records, replies: Replies)
    requires PresentOutcome(store, decode, ch, records, replies).err.Some?
    ensures PresentOutcome(store, decode, ch, records, replies).records == records
  {
    PresentSteps(store, decode, ch, records, replies);
  }

  /** Presenting the same challenge again succeeds, makes the same calls and leaves the
      rrsets exactly as the first call left them. */
  lemma PresentIdempotent(store: SecretStore, decode: Decoder, ch: ChallengeRequest,
                          records: Records, replies: Replies)
    requires PresentOutcome(store, decode, ch, records, replies).err.None?
    ensures var once := PresentOutcome(store, decode, ch, records, replies);
            var twice := PresentOutcome(store, decode, ch, once.records, replies);
            twice.err.None? && twice.records == once.records && twice.calls == once.calls
  {
    PresentSucceedsIff(store, decode, ch, records, replies);
    var once := PresentOutcome(store, decode, ch, records, replies);
    PresentSteps(store, decode, ch, records, replies);
    PresentSteps(store, decode, ch, once.records, replies);
  }

  /** The rrsets after `n` successive `Present` calls for the same challenge, as the host
      issues them when it retries. */
  function PresentRetried(store: SecretStore, decode: Decoder, ch: ChallengeRequest,
                          records: Records, replies: Replies, n: nat): Records
    decreases n
  {
    if n == 0 then records
    else PresentOutcome(store, decode, ch, PresentRetried(store, decode, ch, records, replies, n - 1), replies).records
  }

  /** However often `Present` is retried after a first success, every retry succeeds and
      the rrsets stay as the first call left them. */
  lemma {:induction false} PresentRetriesSettle(store: SecretStore, decode: Decoder, ch: ChallengeRequest,
                                                records: Records, replies: Replies, n: nat)
    requires PresentOutcome(store, decode, ch, records, replies).err.None?
    requires n >= 1
    ensures PresentRetried(store, decode, ch, records, replies, n)
              == PresentOutcome(store, decode, ch, records, replies).records
    ensures PresentOutcome(store, decode, ch, PresentRetried(store, decode, ch, records, replies, n), replies).err.None?
  {
    PresentIdempotent(store, decode, ch, records, replies);
    if n > 1 {
      PresentRetriesSettle(store, decode, ch, records, replies, n - 1);
    }
  }

  /** An end-to-end request against an empty account: one read, one
      upsert of `["abc123"]` at TTL 300, success. */
  lemma PresentScenario(store: SecretStore, decode: Decoder, raw: seq<byte>, token: seq<byte>)
    requires Decode(decode, raw) == Some(SolverConfig(SecretKeySelector("gandi-creds", "token")))
    requires store.secrets == map[("ns1", "gandi-creds") := map["token" := token]]
    ensures var ch := ChallengeRequest("abc123", "_acme-challenge.example.com.", "example.com.",
                                       "ns1", Some(ConfigJson(raw)));
            var key := RecordKey("example.com", "_acme-challenge", "TXT");
            PresentOutcome(store, decode, ch, map[], Replies(false, Status(200), false))
              == Outcome(None,
                         map[key := DomainRecord("_acme-challenge", ["abc123"], 300)],
                         [GetCall(key), UpdateCall(key, 300, ["abc123"])])
  {
    SplitAcmeChallenge();
  }

  // ---------------------------------------------------------------- CleanUp

  /** `CleanUp` succeeds exactly when credentials resolve, the read succeeds and either
      no rrset is found or the delete succeeds. */
  lemma CleanUpSucceedsIff(store: SecretStore, decode: Decoder, ch: ChallengeRequest,
                           records: Records, replies: Replies)
    ensures CleanUpOutcome(store, decode, ch, records, replies).err.None? <==>
              && ClientResolves(store, decode, ch)
              && !replies.readFails
              && (!Found(Lookup(records, ChallengeKey(ch))) || !replies.deleteFails)
  {
    CleanUpSteps(store, decode, ch, records, replies);
  }

  /** A delete is issued exactly when the read found an rrset with a name and a value;
      otherwise `CleanUp` succeeds and nothing changes. */
  lemma CleanUpDeletesOnlyFound(store: SecretStore, decode: Decoder, ch: ChallengeRequest,
                                records: Records, replies: Replies)
    ensures DeleteCall(ChallengeKey(ch)) in CleanUpOutcome(store, decode, ch, records, replies).calls <==>
              ClientResolves(store, decode, ch) && !replies.readFails && Found(Lookup(records, ChallengeKey(ch)))
    ensures ClientResolves(store, decode, ch) && !replies.readFails && !Found(Lookup(records, ChallengeKey(ch))) ==>
              CleanUpOutcome(store, decode, ch, records, replies) == Outcome(None, records, [GetCall(ChallengeKey(ch))])
  {
    CleanUpSteps(store, decode, ch, records, replies);
  }

  /** After a successful `CleanUp` no value is left at the challenge rrset, and no other
      rrset changed; a failed one changes nothing. */
  lemma CleanUpRemovesRrset(store: SecretStore, decode: Decoder, ch: ChallengeRequest,
                            records: Records, replies: Replies)
    ensures var o := CleanUpOutcome(store, decode, ch, records, replies);
            && o.records - {ChallengeKey(ch)} == records - {ChallengeKey(ch)}
            && (o.err.None? ==> !Found(Lookup(o.records, ChallengeKey(ch))))
            && (o.err.Some? ==> o.records == records)
  {
    CleanUpSteps(store, decode, ch, records, replies);
  }

  /** A found rrset is deleted outright: after the delete the key is gone from the store,
      whatever values it held, and every other rrset is as before. */
  lemma CleanUpDeletesFoundRrset(store: SecretStore, decode: Decoder, ch: ChallengeRequest,
                                 records: Records, replies: Replies)
    requires ClientResolves(store, decode, ch) && !replies.readFails && !replies.deleteFails
    requires Found(Lookup(records, ChallengeKey(ch)))
    ensures var o := CleanUpOutcome(store, decode, ch, records, replies);
            o.err.None? && o.records == records - {ChallengeKey(ch)}
  {
    CleanUpSteps(store, decode, ch, records, replies);
  }

  /** The whole rrset goes, not only the challenge's value: any other value stored beside
      it, such as a concurrent challenge's, is removed with it. */
  lemma CleanUpDropsSiblingValues(store: SecretStore, decode: Decoder, ch: ChallengeRequest,
                                  records: Records, replies: Replies, other: string)
    requires ClientResolves(store, decode, ch) && !replies.readFails && !replies.deleteFails
    requires ChallengeKey(ch) in records && records[ChallengeKey(ch)].rrsetName != ""
    requires ch.key in records[ChallengeKey(ch)].rrsetValues
    requires other in records[ChallengeKey(ch)].rrsetValues
    ensures var o := CleanUpOutcome(store, decode, ch, records, replies);
            o.err.None? && ChallengeKey(ch) !in o.records
  {
    CleanUpDeletesFoundRrset(store, decode, ch, records, replies);
  }

  /** Cleaning up twice: once a CleanUp has succeeded, another one whose read succeeds
      also succeeds, with the read alone, and changes nothing, whatever the first call's
      replies were. */
  lemma CleanUpIdempotent(store: SecretStore, decode: Decoder, ch: ChallengeRequest,
                          records: Records, first: Replies, second: Replies)
    requires CleanUpOutcome(store, decode, ch, records, first).err.None?
    requires !second.readFails
    ensures var once := CleanUpOutcome(store, decode, ch, records, first);
            var twice := CleanUpOutcome(store, decode, ch, once.records, second);
            twice == Outcome(None, once.records, [GetCall(ChallengeKey(ch))])
  {
    var once := CleanUpOutcome(store, decode, ch, records, first);
    CleanUpSteps(store, decode, ch, records, first);
    CleanUpSteps(store, decode, ch, once.records, second);
  }

  /** `CleanUp` undoes a successful `Present`: the challenge rrset is gone and every other
      rrset is as before the challenge. The record name must be non-empty, since the read
      test ignores an rrset without a name. */
  lemma PresentThenCleanUp(store: SecretStore, decode: Decoder, ch: ChallengeRequest,
                           records: Records, replies: Replies, cleanUpReplies: Replies)
    requires PresentOutcome(store, decode, ch, records, replies).err.None?
    requires ChallengeKey(ch).name != ""
    requires !cleanUpReplies.readFails && !cleanUpReplies.deleteFails
    ensures var presented := PresentOutcome(store, decode, ch, records, replies);
            CleanUpOutcome(store, decode, ch, presented.records, cleanUpReplies)
              == Outcome(None, records - {ChallengeKey(ch)},
                         [GetCall(ChallengeKey(ch)), DeleteCall(ChallengeKey(ch))])
  {
    PresentSucceedsIff(store, decode, ch, records, replies);
    var key := ChallengeKey(ch);
    var presented := PresentOutcome(store, decode, ch, records, replies);
    PresentSteps(store, decode, ch, records, replies);
    CleanUpSteps(store, decode, ch, presented.records, cleanUpReplies);
    assert presented.records == records[key := ChallengeRecord(key, ch.key)];
    assert presented.records - {key} == records - {key};
  }

  // ------------------------------------------------------- both operations

  /** Without a configuration both operations fail with the configuration error before
      any call to the service, leaving every rrset untouched. */
  lemma NoConfigurationTouchesNothing(store: SecretStore, decode: Decoder, ch: ChallengeRequest,
                                      records: Records, replies: Replies)
    requires ch.config.None?
    ensures PresentOutcome(store, decode, ch, records, replies)
              == Outcome(Some(ClientUnavailable(NoConfiguration)), records, [])
    ensures CleanUpOutcome(store, decode, ch, records, replies)
              == Outcome(Some(ClientUnavailable(NoConfiguration)), records, [])
  {
  }

  // ------------------------------------------------------------ a client

  /** A challenge as the host drives it: initialise, present, present again (a retry),
      clean up, against a service that answers every call successfully. */
  method RetriedChallenge(store: SecretStore, decode: Decoder, ch: ChallengeRequest, initial: Records)
    returns (first: Option<SolverError>, second: Option<SolverError>, cleanup: Option<SolverError>,
             published: Records, final: Records)
    requires ClientResolves(store, decode, ch)
    requires ChallengeKey(ch).name != ""
    ensures first == None && second == None && cleanup == None
    ensures published == initial[ChallengeKey(ch) := ChallengeRecord(ChallengeKey(ch), ch.key)]
    ensures final == initial - {ChallengeKey(ch)}
  {
    var solver := new GandiSolver();
    var err := solver.Initialize(Some(KubeClient));
    var dns := new LiveDnsService(initial);
    var ok := Replies(false, Status(200), false);
    first := solver.Present(ch, decode, store, dns, ok);
    PresentSucceedsIff(store, decode, ch, initial, ok);
    PresentSteps(store, decode, ch, initial, ok);
    second := solver.Present(ch, decode, store, dns, ok);
    PresentIdempotent(store, decode, ch, initial, ok);
    published := dns.records;
    cleanup := solver.CleanUp(ch, decode, store, dns, ok);
    PresentThenCleanUp(store, decode, ch, initial, ok, ok);
    final := dns.records;
  }
}
