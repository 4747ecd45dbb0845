# cert-manager webhook for Gandi LiveDNS — a Dafny model

The repository is a cert-manager DNS-01 solver. For an ACME challenge it publishes the
`_acme-challenge` TXT record that section 8.4 of RFC 8555 asks for, and removes it
afterwards. The record lives in a Gandi LiveDNS zone. The model covers `main.go`:

- `GoStrings` (`strings.dfy`): `strings.HasSuffix` and `strings.TrimSuffix`. The trim
  removes at most one occurrence of the suffix.
- `ChallengeNames` (`names.dfy`): `getDomainAndChallengeFQDN`. It turns the resolved FQDN
  and zone into the record name relative to the zone and the zone without its dot.
- `Credentials` (`credentials.dfy`): `getGandiClient`, a total function. It goes from the
  optional solver config, a JSON decoder and the reachable Kubernetes secrets to a
  LiveDNS client or to one of four errors, in the order of the early returns.
- `LiveDns` (`livedns.dfy`): the Gandi account as a class. It holds the rrsets in a map
  keyed by (domain, name, type) and keeps a ghost log of the calls made to it. Its three
  methods stand for the three go-gandi calls the solver makes.
- `Webhook` (`webhook.dfy`): the solver class `GandiSolver` with `Name`, `Initialize`,
  `Present` and `CleanUp`. `PresentOutcome` and `CleanUpOutcome` give the error, the new
  rrsets and the calls of one operation: credential resolution, then the provider step
  (`PresentWithClient`, `CleanUpWithClient`). Each method is proved equal to its function.
- `WebhookProperties` (`properties.dfy`): lemmas about both operations, including any number
  of retried `Present` calls, and a client that runs a retried challenge.

How the outside world enters the model:

- The Kubernetes secret store is a map from (namespace, secret name) to the secret's data.
  `Present` and `CleanUp` each take the store as it is at that call, so a secret created,
  rotated or deleted between calls is seen by the next one. A missing pair stands for
  every failed `Get`, whether "not found" or an API error.
- `json.Unmarshal` of the solver config is a map `decode` from raw configs to their
  decoded value. A raw config that is not a key fails to decode.
- The LiveDNS service answers each call as a `Replies` value says: does the read fail,
  does the update get a transport error or which status code, does the delete fail.
  The store changes only when the update is answered 200 or the delete succeeds.
  A successful read of a missing rrset returns the zero record, as the not-found
  branch of the solver expects.

Behaviour worth knowing, all as written in `main.go`:

- `Present` writes the single value `[key]`. Any other values already at that name are
  replaced (`PresentWritesChallenge`).
- `CleanUp` deletes the whole TXT rrset, not only the challenge's own value. The interface
  comment at `main.go:127-132` asks for the narrower behaviour. A concurrent challenge for
  the same name loses its value (`CleanUpDropsSiblingValues`).
- A challenge at the zone apex gets an empty record name (`SplitApex`). The cleanup test
  needs a non-empty name, so `PresentThenCleanUp` assumes one.

## Model

| member | source | states |
|---|---|---|
| `GoStrings.HasSuffix` | main.go:216-218 | the input ends with the suffix exactly when the suffix is no longer than the input and the input is its own front part followed by the suffix |
| `GoStrings.TrimSuffix` | main.go:216-218 | the result plus the suffix is the input when the input ends with the suffix; otherwise the input is returned unchanged |
| `GoStrings.TrimSuffixOnce` | main.go:217 | only one occurrence is removed: trimming `s + suffix` gives `s` back even when `s` ends with the suffix |
| `ChallengeNames.SplitChallengeFqdn` | main.go:214-220 | the record name is never longer than the FQDN, and the domain is the zone's length or one shorter |
| `ChallengeNames.SplitBounds` | main.go:214-220 | the record name is a prefix of the FQDN; the domain is the zone minus at most one dot, and equals the zone exactly when the zone has no trailing dot |
| `ChallengeNames.SplitRecomposes` | main.go:214-220 | for an FQDN `<x>.<zone>`, the record name, a dot and the zone rebuild the FQDN |
| `ChallengeNames.SplitNameAndZone` | main.go:214-220 | `<name>.<zone>` with a dot-terminated zone splits into `name` and the zone without its dot |
| `ChallengeNames.SplitAcmeChallenge` | main.go:215-219 | `_acme-challenge.example.com.` in zone `example.com.` gives record `_acme-challenge` and domain `example.com` |
| `ChallengeNames.SplitOutsideZone` | main.go:216-218 | an FQDN that does not end with the zone is kept, minus at most one trailing dot; the domain is never longer than the zone |
| `ChallengeNames.SplitApex` | main.go:216-217 | an FQDN equal to its zone yields an empty record name |
| `Credentials.GetGandiClient` | main.go:181-212 | an absent config fails first with the configuration error; a decode failure comes next; a missing secret and a found secret lacking the key give distinct errors naming the secret (and key and namespace); on success the token is the secret's bytes under the key |
| `Credentials.ClientResolvedIff` | main.go:184-207 | resolution succeeds if and only if the config is present, decodes, the secret is found and holds the key; the token is then those bytes |
| `Credentials.AbsentConfigIgnoresStore` | main.go:184-185 | without a config the result is the configuration error whatever the secret store holds |
| `LiveDns.LiveDnsService.GetDomainRecordByNameAndType` | main.go:99-102 | logs one read; fails exactly when the reply says so; otherwise returns the stored rrset or the zero record, without changing the store |
| `LiveDns.LiveDnsService.UpdateDomainRecordByNameAndType` | main.go:107-113 | logs one update with its TTL and values; stores the whole rrset with those values and TTL when answered 200, otherwise leaves the store alone; returns the reply |
| `LiveDns.LiveDnsService.DeleteDomainRecord` | main.go:151-154 | logs one delete; on success removes the whole rrset at the key and nothing else |
| `Webhook.ChallengeKeyInZone` | main.go:96-99 | the rrset the solver addresses has type TXT, and for an FQDN inside the zone its name, a dot and the zone spell the FQDN |
| `Webhook.PresentWithClient` | main.go:99-124 | with a client in hand, Present succeeds if and only if the read succeeds and the update is answered 200; success stores exactly the challenge record at the key, failure changes nothing; the calls are the read and, after a successful read, one upsert of `[value]` at TTL 300; a rejection carries the status and the domain |
| `Webhook.CleanUpWithClient` | main.go:144-157 | with a client in hand, CleanUp succeeds if and only if the read succeeds and either nothing is found or the delete succeeds; the calls are always the read of the challenge rrset, followed by exactly one delete of it if and only if the read found it; success removes exactly that rrset when found and nothing otherwise, failure changes nothing |
| `Webhook.GandiSolver.Name` | main.go:78-80 | the solver is named `gandi` |
| `Webhook.GandiSolver.Initialize` | main.go:169-177 | succeeds exactly when a Kubernetes client could be built, and then keeps that client handle; on failure reports the client error and keeps the old client |
| `Webhook.GandiSolver.Present` | main.go:87-125 | the error, the new rrsets and the calls made are those of `PresentOutcome` on the secrets given to this call and the old rrsets |
| `Webhook.GandiSolver.CleanUp` | main.go:133-158 | the error, the new rrsets and the calls made are those of `CleanUpOutcome` on the secrets given to this call and the old rrsets |
| `WebhookProperties.PresentSucceedsIff` | main.go:91-124 | Present succeeds if and only if credentials resolve, the read succeeds and the update is answered 200 |
| `WebhookProperties.PresentRejectsNon200` | main.go:111-112 | a status other than 200 is an error carrying that status and the domain, and changes no rrset |
| `WebhookProperties.PresentUpsertsMinTtl` | main.go:104-121 | every upsert uses TTL 300 and the values `[key]` at the challenge rrset, in both branches; after a successful read there is exactly one read and one upsert |
| `WebhookProperties.PresentWritesChallenge` | main.go:99-124 | after success the challenge rrset holds exactly `[key]` at TTL 300, and every other rrset is unchanged |
| `WebhookProperties.PresentFailureKeepsRecords` | main.go:99-121 | a failed Present changes no rrset |
| `WebhookProperties.PresentIdempotent` | main.go:84-124 | presenting again after success succeeds, makes the same calls and leaves the rrsets identical |
| `WebhookProperties.PresentRetriesSettle` | main.go:82-124 | after a first success, any number of further Present calls for the same challenge each succeed and leave the rrsets exactly as the first call did |
| `WebhookProperties.PresentScenario` | main.go:87-124 | the end-to-end request against an empty account makes one read and one upsert of `["abc123"]` at TTL 300 and succeeds |
| `WebhookProperties.CleanUpSucceedsIff` | main.go:137-157 | CleanUp succeeds if and only if credentials resolve, the read succeeds and either nothing is found or the delete succeeds |
| `WebhookProperties.CleanUpDeletesOnlyFound` | main.go:149-157 | a delete is issued if and only if the read found a named rrset with a value; otherwise CleanUp succeeds after the read alone and changes nothing |
| `WebhookProperties.CleanUpRemovesRrset` | main.go:149-155 | after success nothing is found at the challenge rrset; no other rrset ever changes; a failed CleanUp changes nothing |
| `WebhookProperties.CleanUpDeletesFoundRrset` | main.go:149-155 | whenever the read finds the rrset and the delete succeeds, CleanUp succeeds and the new rrsets are the old ones minus exactly that key, whatever values it held |
| `WebhookProperties.CleanUpDropsSiblingValues` | main.go:149-155 | an rrset holding the challenge value beside any other value is removed as a whole, so the other value is lost too |
| `WebhookProperties.CleanUpIdempotent` | main.go:144-157 | after any successful CleanUp, a second one whose read succeeds also succeeds with the read alone and changes nothing, whatever the first call's replies were |
| `WebhookProperties.PresentThenCleanUp` | main.go:99-155 | CleanUp after a successful Present leaves the rrsets as before the challenge, minus any rrset that was at the challenge name |
| `WebhookProperties.NoConfigurationTouchesNothing` | main.go:184-185 | with no config both operations fail with the configuration error before any call to the service |
| `WebhookProperties.RetriedChallenge` | main.go:87-158 | initialise, present, present again and clean up all succeed against a healthy service; the published rrsets hold the challenge record, and the final rrsets are the initial ones without the challenge name |

## Left out

- `main`, the `GROUP_NAME` environment read and `cmd.RunWebhookServer` (main.go:27-42): process start-up.
- `klog` logging: output only.
- `kubernetes.NewForConfig` in `Initialize`: its outcome is the `built` parameter, a handle with no contents. The secret store it reaches is passed to each operation instead.
- The secret `Get` call: a map lookup stands for it. Errors other than "not found" are not told apart.
- `json.Unmarshal`: the `decode` map stands for it.
- go-gandi and its HTTP transport: the `LiveDnsService` class stands for them. Authentication with the token is not modelled; a rejected token shows as failed replies.
- Whether go-gandi reports a missing rrset as an error or as an empty record is up to that library. A read error is modelled by `readFails`; a successful read of a missing rrset yields the zero record.
- What the service stores when it answers an update with a code other than 200 is unknown. The model assumes it stores nothing.
- The wording of the error messages: each `fmt.Errorf` is one `SolverError` constructor. It carries only the solver's own values: the status code, the domain, the secret name, the key and the namespace.
- The error values returned by `json.Unmarshal`, the secret `Get`, `kubernetes.NewForConfig` and go-gandi: they are not modelled, so the text they add to a message through `%v` is dropped. `KubeClientFailed`, `ConfigDecodeFailed`, `SecretUnavailable`, `RecordCheckFailed`, `UpsertFailed` and `RemoveFailed` record only that the call failed.
- Concurrent challenges on the same name: the solver does nothing to order them.
- `Webhook.GandiSolver.Present`, `Webhook.GandiSolver.CleanUp`: they require an initialised Kubernetes client unless the config is absent or does not decode. Those two cases return before the secret lookup. Otherwise the source dereferences the nil client at the secret lookup when `Initialize` was never called.
