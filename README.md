# Verida helper: session state and credential pipeline

This project models the `VeridaHelper` class of the account explorer
(`src/helpers/VeridaHelper.ts`). The class is a facade over the Verida
client library. It holds one account's session: the network context, the
account DID, a connected flag, a lazily cached messaging channel, the last
profile fetched and the last DID document fetched. On top of that session it
does four things:

- it resolves public profiles, with a default context name;
- it sends "new contact" messages to the account's own inbox;
- it reads and verifies a shared credential: decode, open the issuing context,
  fetch, verify, then look up the issuer, the subject and the schema;
- it decides whether a credential has expired.

The model has four modules:

- `VeridaSpec` (`verida_spec.dfy`) gives each operation as a function over a
  `Session` value. The client library is a `Network` record with one oracle
  function per library call. Every call that goes out to the network is
  recorded, in order, as a `Call`. This is how the model states what was asked,
  in what order, and what was never asked.
- `Helper` (`verida_helper.dfy`) is the class `VeridaHelper`. It has the
  source's fields. Its methods update them step by step, in the source's order.
  Each method is proved to leave the fields, the call log and the result
  exactly as its `VeridaSpec` function says. That function has the same name,
  except that `InitialiseMessagingInstance` is specified by
  `InitialiseMessaging`. `Logout` has no calls and no result, so only its
  fields are compared. `GetSchemaSpecs` changes no field, so only its calls
  and result are compared.
- `VeridaLemmas` (`verida_lemmas.dfy`) holds properties that relate several
  calls: the messaging quirk, the lookup order, the stale profile and the deep
  link round trip.
- `VeridaTrace` (`verida_trace.dfy`) defines runs of operations. Its lemmas,
  proved by induction, hold for every run.

Where the code and its evident intent disagree, the model follows the code.
The intent is read off the code itself: the "No app context" message, and a
`getProfile` that is asked for one DID's profile.

- `initialiseMessagingInstance` throws whenever no channel is cached. When a
  context is present it caches a channel first. So when no channel was cached
  before a successful `connect`, the first `sendMessage` after it rejects with
  "No app context". The next one sends through the channel it cached, and
  resolves with true when that send resolves and the payload is not null.
- `getProfile` does not return "absent" when the profile store does not open.
  It returns the previous `this.profile`, which may belong to another DID. So
  a subject without a profile store is reported with the issuer's profile.
- `connect` stores the context before the account DID is awaited. When that
  lookup fails, the new context stays stored while the connected flag and the
  DID keep their old values. So a failed first connect leaves a helper that is
  not connected, with an empty DID, whose messaging still goes through the
  stored context. A failed reconnect leaves the flag set, with the new context
  and the old account's DID.
- `connect` does not drop a cached messaging channel. Only `logout` does.
- Some inputs typed `any` are read without checks, and the model reports the
  resulting `TypeError`s:
  - an empty credential list fails while reading `[0].vc`;
  - a credential without `vc` fails while reading `vc.veridaContextName`, before
    any lookup;
  - a credential without `credentialSubject` fails only after both profile
    lookups, so `this.profile` has already been overwritten when the error is
    raised;
  - a null `messageData` fails at `messageData.firstName`, after the channel is
    in hand and before anything is sent.

## Model

| member | source | states |
|---|---|---|
| `VeridaSpec.InitialSession` | src/helpers/VeridaHelper.ts:29-34 | the constructed helper has no context, an empty DID, no channel and is not connected, and it satisfies the session invariant |
| `Helper.VeridaHelper.constructor` | src/helpers/VeridaHelper.ts:29-34 | the new object's fields are the initial session and satisfy the session invariant |
| `VeridaSpec.Connect` | src/helpers/VeridaHelper.ts:36-43 | the context is stored whatever happens; on success the DID is the account DID of that context and the session is connected; on failure the DID and the flag are unchanged and the error propagates; the channel, profile and DID document are untouched; the one call is the account lookup |
| `Helper.VeridaHelper.Connect` | src/helpers/VeridaHelper.ts:36-43 | the new fields, the calls and the result are exactly those of `VeridaSpec.Connect` on the old fields |
| `VeridaSpec.Logout` | src/helpers/VeridaHelper.ts:169-174 | context absent, not connected, DID empty, channel absent, whatever the prior state; profile and DID document kept |
| `Helper.VeridaHelper.Logout` | src/helpers/VeridaHelper.ts:169-174 | the new fields are `VeridaSpec.Logout` of the old ones |
| `VeridaLemmas.LogoutIdempotent` | src/helpers/VeridaHelper.ts:169-174 | logging out twice gives the same state as logging out once |
| `VeridaLemmas.SendAfterLogoutFails` | src/helpers/VeridaHelper.ts:64-90 | after logout, `sendMessage` rejects with "No app context", changes nothing and makes no call |
| `VeridaSpec.ProfileContextName` | src/helpers/VeridaHelper.ts:46-47 | the given context name when it is present and non-empty, otherwise the configured vault name (JavaScript `\|\|`) |
| `VeridaSpec.StampDid` | src/helpers/VeridaHelper.ts:56-58 | a present record gets key `did` set to the looked-up DID and keeps every other key; an absent record stays absent |
| `VeridaSpec.GetProfile` | src/helpers/VeridaHelper.ts:45-62 | only `profile` can change, and the value returned is `profile` after the call. The only calls are store opens and record fetches, starting with the open for the DID under the chosen context name with `basicProfile`. A rejected open returns its own error after one call, with nothing changed. A store that does not open leaves the state unchanged and returns the previous profile. A store that opens is followed by exactly one fetch. If the fetch succeeds, `profile` is the fetched record with the DID stamped on it. If it rejects, its error is returned and nothing changes |
| `Helper.VeridaHelper.GetProfile` | src/helpers/VeridaHelper.ts:45-62 | the new fields, the calls and the result are exactly those of `VeridaSpec.GetProfile` |
| `VeridaLemmas.GetProfileLookup` | src/helpers/VeridaHelper.ts:45-53 | one `getProfile` makes exactly one profile-store lookup, with the name from the `\|\|` fallback |
| `VeridaSpec.InitialiseMessaging` | src/helpers/VeridaHelper.ts:64-74 | a cached channel is returned with nothing changed and no call; with no channel it always rejects; with no context it rejects with "No app context" and the cache stays absent; with a context it fetches a channel, caches it and still rejects with "No app context", or propagates the fetch error with nothing cached |
| `Helper.VeridaHelper.InitialiseMessagingInstance` | src/helpers/VeridaHelper.ts:64-74 | the new fields, the calls and the result are exactly those of `VeridaSpec.InitialiseMessaging` |
| `VeridaLemmas.InitialiseTwice` | src/helpers/VeridaHelper.ts:64-74 | with a context and no cached channel, the first call rejects and the immediately repeated call returns the channel the first one cached, with no call |
| `VeridaSpec.TemplateText` | src/helpers/VeridaHelper.ts:87 | the template literal prints the first name, or `undefined` when it is absent |
| `VeridaSpec.MessageEnvelope` | src/helpers/VeridaHelper.ts:77-88 | for a non-null payload: the recipient and the config DID are the session DID; the type is `inbox/type/dataSend`; the data is the one-element array holding the payload; the recipient context is `Verida: Vault`; the subject is `New Contact: ` followed by the first name |
| `VeridaSpec.SendMessage` | src/helpers/VeridaHelper.ts:76-90 | if initialisation rejects, its state change, calls and error are the whole outcome and nothing is sent. Once a channel is in hand, a null payload rejects with a `TypeError` on `firstName` and nothing is sent. Otherwise exactly one `send` of the envelope for the session DID goes through the channel and no field changes. The result is true exactly when that send succeeds, and the send's error when it rejects. A success implies a non-null payload |
| `Helper.VeridaHelper.SendMessage` | src/helpers/VeridaHelper.ts:76-90 | the new fields, the calls and the result are exactly those of `VeridaSpec.SendMessage` |
| `VeridaLemmas.FirstSendAfterConnectFails` | src/helpers/VeridaHelper.ts:64-90 | after a successful connect with no channel cached, the first send rejects with "No app context", sends nothing and caches the channel. The second send uses that channel. For a payload it sends exactly one envelope, to the account DID, and resolves with true exactly when the send succeeds. For a null payload it rejects with a `TypeError` and makes no call |
| `VeridaSpec.GetSchemaSpecs` | src/helpers/VeridaHelper.ts:92-98 | one schema lookup through the given context; its answer or error is the result |
| `Helper.VeridaHelper.GetSchemaSpecs` | src/helpers/VeridaHelper.ts:92-98 | the calls and the result are those of `VeridaSpec.GetSchemaSpecs`: the one schema lookup through the given context, and its answer or error. No field changes |
| `VeridaSpec.HasCredentialExpired` | src/helpers/VeridaHelper.ts:100-112 | false when the expiration date is absent or falsy; otherwise true exactly when the expiration instant is strictly before now, so equality is not expired |
| `VeridaSpec.IssuerContextOverride` | src/helpers/VeridaHelper.ts:132-139 | an override exists exactly when the credential's `vc.veridaContextName` is the literal `Verida: Credential Manager`, and it is that literal |
| `VeridaSpec.PublicUri` | src/helpers/VeridaHelper.ts:153 | the link is the origin, then `/credential?uri=`, then the still-encoded input, and nothing else |
| `VeridaLemmas.PublicUriRoundTrip` | src/helpers/VeridaHelper.ts:153 | the raw text after `${origin}/credential?uri=` in the link is exactly the original, still-encoded input. No query-string decoding is applied |
| `VeridaSpec.FirstCredential` | src/helpers/VeridaHelper.ts:128-136 | the credential is taken exactly when the list is non-empty and element 0 has a `vc`. An empty list fails with a `TypeError` on `vc`. An element without `vc` fails with a `TypeError` on `veridaContextName` |
| `VeridaSpec.OpenCredential` | src/helpers/VeridaHelper.ts:114-136 | the stages run in order: explode the decoded URI, open the external context, fetch the token with the decoded URI, verify it, and take the first credential. Each stage runs only when the one before it succeeded. The first rejection is the result, and the calls are those of the stages reached. No profile or schema lookup is made. The result is a success exactly when every stage succeeds. In that case the context is the external one named by the decoded URI, and the credential is element 0 of the verified list and carries a `vc` |
| `VeridaSpec.ReadVerifiedCredential` | src/helpers/VeridaHelper.ts:114-162 | only `profile` can change. A failure in opening the credential leaves the state unchanged and returns that error. Then come the issuer lookup (with the override), the subject lookup (with the vault name) and the schema lookup through the external context, each only when the ones before it succeeded. A rejected lookup returns its own error, with the calls made so far and the state that lookup left. A missing `credentialSubject` fails with a `TypeError` on `schema`, after both profile lookups. Otherwise the result is a success exactly when the schema lookup succeeds. The issuer profile, the subject profile and the schema are then those lookups' values, the credential is the first one verified, the link is the deep link of the original input, and the state is the one the subject lookup left |
| `Helper.VeridaHelper.ReadVerifiedCredential` | src/helpers/VeridaHelper.ts:114-162 | the new fields, the calls and the result are exactly those of `VeridaSpec.ReadVerifiedCredential` |
| `VeridaLemmas.ReadLookupOrder` | src/helpers/VeridaHelper.ts:132-151 | a credential that was read made exactly three lookups, in this order: the issuer with the Credential Manager name only for that exact literal and the vault name otherwise, the subject with the vault name, and the schema through the external context |
| `VeridaLemmas.ReadFailsBeforeLookups` | src/helpers/VeridaHelper.ts:114-136 | when an early stage fails, no lookup is made, no field changes, and that stage's error is the result |
| `VeridaLemmas.ReadStopsAtFailedLookup` | src/helpers/VeridaHelper.ts:141-151 | a rejected issuer lookup is the only lookup made, and its error is the result. A rejected subject lookup follows only the issuer lookup, and its error is the result. Neither case reaches the schema lookup |
| `VeridaLemmas.MissingSubjectAfterProfiles` | src/helpers/VeridaHelper.ts:141-151 | a credential without `credentialSubject` is rejected with a `TypeError` after both profile lookups succeeded. `profile` is left as the subject lookup set it, which is the issuer's profile when the subject has no store |
| `VeridaLemmas.SubjectWithoutStoreRepeatsIssuer` | src/helpers/VeridaHelper.ts:54-61 | when the subject has no profile store, the subject profile returned is the issuer profile left by the first lookup |
| `VeridaSpec.GetDidDocument` | src/helpers/VeridaHelper.ts:163-167 | on success `didDocument` is the resolved document and no other field changes; on failure nothing changes and the error propagates |
| `Helper.VeridaHelper.GetDidDocument` | src/helpers/VeridaHelper.ts:163-167 | the new fields, the calls and the result are exactly those of `VeridaSpec.GetDidDocument` |
| `VeridaTrace.StepPreservesInvariant` | src/helpers/VeridaHelper.ts:36-174 | every operation preserves the invariant: connected or holding a channel needs a context, and with no context the DID is empty |
| `VeridaTrace.RunPreservesInvariant` | src/helpers/VeridaHelper.ts:29-174 | every session reached by any run of operations from the constructed helper satisfies that invariant |
| `VeridaTrace.ChannelReusedUntilLogout` | src/helpers/VeridaHelper.ts:64-90 | once a channel is cached, every later send uses it and no other channel is fetched until logout, including across a reconnect |
| `VeridaTrace.NoMessagingBeforeConnect` | src/helpers/VeridaHelper.ts:64-90 | a helper with no context (as constructed, or after logout) fetches no channel and sends no message until the next connect |
| `VeridaLemmas.FailedConnectKeepsContext` | src/helpers/VeridaHelper.ts:36-43 | a connect whose account lookup fails still stores the new context, leaves the connected flag and the DID as they were, and on a helper with no cached channel the next `sendMessage` fetches a channel through that context |

## Left out

- Library calls are oracles. `openPublicProfile`, `getMany`, `openExternalContext`, `Utils.fetchVeridaUri`, `Utils.explodeVeridaUri`, `getSchema`/`getSpecification`, `didClient.get`, `getAccount().did()`, `getMessaging` and `messaging.send` are fields of `Network`. Each one maps its arguments to an answer or an error. So the model assumes repeated identical calls get identical answers.
- `getSchema` and `getSpecification` are one oracle and one recorded call. Either can fail, and neither failure is observable other than as an error.
- `Credentials.verifyPresentation` is an oracle that accepts or rejects the token. Signature checking is not modelled.
- Base64 decoding through `Buffer` is the opaque oracle `decodeBase64`. It never fails, like `Buffer.from`.
- dayjs parsing and `utc(true)` are not modelled. Instants are integers in milliseconds, and `now` is a parameter. An absent, empty or unparsable date is `None`, and the source also returns false for each of these. `utc(true)` shifts both instants by the local offset. That shift cancels unless the two instants fall on different sides of a daylight-saving change.
- `window.origin` is a parameter of `ReadVerifiedCredential`.
- `config.veridaVaulContextName` is a parameter: the class's `vaultContextName` and the spec functions' `vault`.
- `connected` starts as `undefined` in the source and `false` here. Nothing in the class reads it.
- Operations run one after another. In the source, another call could run while one is awaiting (a `logout` while `connect` awaits the account DID, for example). That interleaving is not modelled. As a result, the `if (this.context)` test in `connect` is always true in the model.
- Async/await, the `EventEmitter` base class, the unused `credentials` and `on` fields, the module-level `userConfig` and the exported singleton are left out.
- Error values do not model the library's error objects. A library rejection is `Rejected(reason)`, passed on unchanged, with a reason the oracle chooses. `NoAppContextError` is the helper's own error. `TypeError(property)` names the property that could not be read.
- Some `any`-typed values are assumed to have the shape the helper reads: the issuer and subject of `vc` are strings, the verified payload has a `verifiablePresentation`, the account DID, `url` fields and the JWT are strings, and the DID document `didClient.get` resolves with is an object (never `undefined`). A missing `vc`, a missing `credentialSubject`, an empty credential list and a null `messageData` are modelled.
- Query decoding of the deep link is not modelled. `+` and `%xx` escapes, which base64 text can contain, are taken as raw characters.
- Profile records are string-to-string maps. `firstName` is a string or absent. Other JSON values would print differently in the subject line, and that is not modelled.
- `_messagingInstance` is named `messagingInstance`, because Dafny identifiers cannot start with an underscore.
