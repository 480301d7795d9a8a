# Activation-key registry

A Dafny model of the activation-key factory of a systems-management server
(`ActivationKeyFactory`). Activation keys are registration tokens: each one
carries a unique key string, a token with its channel subscriptions and
config-deployment flag, its creator and org, an optional bound server, a
note, a usage limit, a disabled flag, a contact method and a set of
entitlements (server group types).

The persistence layer is replaced by an in-memory key table.
`KeyRegistry` is a class whose fields are:

- `keys`: key string to row. The key string is unique in the table.
- `orgTokens`: each org's universal default token, held as a token id.
- `nextTokenId`: the next token id the store hands out.

Its invariant `ValidTable` says three things. Each row is filed under its
own key string. Every token id in the table was handed out already. A token
has at most one root key, that is, one key without a kickstart session.

Modules:

- `Wrappers`: `Option` for nullable references, `Result` and `Outcome` for
  raised exceptions.
- `JavaStrings`: `String.trim()`, which cuts characters up to U+0020 at both
  ends. `String.replace` with a one-character target. `StringUtils.isBlank`,
  using the characters `Character.isWhitespace` accepts.
- `ActivationKeyFactory`: the data model, the pure rules and the class:
  - normalising the candidate key, validating the key name, the `re-` prefix;
  - the fields of a new key and entitlement defaulting;
  - lookups by key, token, id and server, and the two removals.
- `ActivationKeyProperties`: lemmas that tie these rules together.

Creation follows the code step by step. The candidate key is normalised
first. Then the org's sanitisation is applied, then validation. A validation
failure returns `Invalid(InvalidChars)` or `Invalid(Exists)` and writes
nothing. The `re-` prefix is added after validation, so uniqueness is checked
on the unprefixed candidate. If the prefixed string is already a row, the
store's uniqueness of key strings refuses the save. This is modelled as `StoreConflict`, and the
transaction is rolled back, so nothing is written. The org's token changes
only when `universalDefault` is true.

Collaborators the factory calls but that are not part of this model are
parameters with nothing assumed of them:

- `uuid`: the text of `UUID.randomUUID()`;
- `sanitize`: `ActivationKey.sanitize(org, key)`;
- `scrub`: `Scrubber.scrub`;
- `tokenLookup`: `TokenFactory.lookup(id, org)`.

Points where the model follows the code rather than its comments or a
reading of them:

- `createNewKey(user, note)` passes usage limit `0`. Its doc comment says
  the limit is null.
- `lookupByKey` short-circuits only a null key. An empty key string is
  looked up like any other.
- A server that is not bootstrap-only gives its entitled group types even
  when it has none. No enterprise fallback is added then.

## Model

| member | source | states |
|---|---|---|
| `JavaStrings.Trim` | java/code/src/com/redhat/rhn/domain/token/ActivationKeyFactory.java:123 | `key.trim()` is the slice from the first to the last character above U+0020; it is empty exactly when every character is at most U+0020, and otherwise starts and ends with a kept character |
| `JavaStrings.RemoveAll` | java/code/src/com/redhat/rhn/domain/token/ActivationKeyFactory.java:123 | `replace(" ", "")` leaves no space and keeps every other character as often as it occurs; a string without the character is unchanged |
| `JavaStrings.RemoveAllAppend` | java/code/src/com/redhat/rhn/domain/token/ActivationKeyFactory.java:123 | removing a character from a concatenation removes it from each part: the kept characters stay in their order |
| `ActivationKeyFactory.GenerateKey` | java/code/src/com/redhat/rhn/domain/token/ActivationKeyFactory.java:206-208 | a generated key contains no `-` and keeps every other character of the UUID text |
| `ActivationKeyFactory.CandidateKey` | java/code/src/com/redhat/rhn/domain/token/ActivationKeyFactory.java:118-124 | a null or empty key becomes a generated key, which has no `-`; any other key becomes a string with no space that is empty or starts and ends with a non-trimmable character, and holds every other character of `key.trim()` exactly as often as it occurs there |
| `ActivationKeyProperties.WhitespaceOnlyKeyIsNotRegenerated` | java/code/src/com/redhat/rhn/domain/token/ActivationKeyFactory.java:118-124 | a non-empty key made only of trimmable characters normalises to `""` and is not replaced by a generated key |
| `ActivationKeyProperties.InnerSpaceIsDropped` | java/code/src/com/redhat/rhn/domain/token/ActivationKeyFactory.java:122-124 | a space inside a key is dropped and the characters around it stay in order: `"ab cd"` normalises as `"abcd"` does |
| `ActivationKeyProperties.UntrimmedEndsKept` | java/code/src/com/redhat/rhn/domain/token/ActivationKeyFactory.java:123 | a string that starts and ends with a character above U+0020 is unchanged by `trim()` |
| `ActivationKeyProperties.CleanKeyIsKept` | java/code/src/com/redhat/rhn/domain/token/ActivationKeyFactory.java:122-124 | a non-empty key with no character up to U+0020 is used as given |
| `ActivationKeyProperties.GeneratedKeyDropsOnlyHyphens` | java/code/src/com/redhat/rhn/domain/token/ActivationKeyFactory.java:206-208 | null and `""` get the same generated key; it has no `-` and is the UUID text shortened by exactly its hyphens |
| `ActivationKeyProperties.RemoveAllLength` | java/code/src/com/redhat/rhn/domain/token/ActivationKeyFactory.java:207 | removing a character shortens the string by the number of its occurrences |
| `ActivationKeyFactory.StoredKey` | java/code/src/com/redhat/rhn/domain/token/ActivationKeyFactory.java:129-131 | a server-bound key is stored as the three characters `re-` followed by the validated candidate, otherwise as the candidate itself; the stored string has `,` or `"` exactly when the candidate has |
| `ActivationKeyFactory.KeyRegistry.ValidateKeyName` | java/code/src/com/redhat/rhn/domain/token/ActivationKeyFactory.java:183-199 | fails with `InvalidChars` if and only if the key contains `,` or `"`; otherwise fails with `Exists` if and only if `lookupByKey` finds the key; otherwise passes; it writes nothing |
| `ActivationKeyFactory.DefaultEntitlements` | java/code/src/com/redhat/rhn/domain/token/ActivationKeyFactory.java:150-159 | a non-bootstrap server gives exactly its entitled group types; no server or a bootstrap-only server gives exactly `{enterprise}` |
| `ActivationKeyProperties.EnterpriseOnlyAsFallbackOrCopied` | java/code/src/com/redhat/rhn/domain/token/ActivationKeyFactory.java:150-159 | a new key has the enterprise entitlement if and only if there is no server, the server is bootstrap-only, or the server itself holds it |
| `ActivationKeyProperties.NoEntitlementsOnlyFromUnentitledServer` | java/code/src/com/redhat/rhn/domain/token/ActivationKeyFactory.java:150-159 | a new key has no entitlement if and only if it copies from a non-bootstrap server with no group type; no fallback is added |
| `ActivationKeyFactory.AddEntitlements` | java/code/src/com/redhat/rhn/domain/token/ActivationKeyFactory.java:152-155 | adding the server's group types one by one leaves the key's other fields alone and extends its entitlements by exactly the set of listed types |
| `ActivationKeyFactory.BlankKey` | java/code/src/com/redhat/rhn/domain/token/ActivationKeyFactory.java:116 | `new ActivationKey()` holds a new token with the given id, no channel, no config deployment, no entitlement and no kickstart session |
| `ActivationKeyFactory.NoteToUse` | java/code/src/com/redhat/rhn/domain/token/ActivationKeyFactory.java:138-140 | a note that `StringUtils.isBlank` accepts (null, empty, or only `Character.isWhitespace` characters) is replaced by `"None"`; any other note is kept; the note used is never blank |
| `ActivationKeyFactory.PopulateKey` | java/code/src/com/redhat/rhn/domain/token/ActivationKeyFactory.java:133-162 | the new row has the given key string, a new token that deploys no configs and holds exactly the base channel when one is given, the user as creator, the user's org, the server argument, the scrubbed note or scrubbed `"None"` for a blank note, disabled false, the given usage limit, contact method 0, the default entitlements and no kickstart session |
| `ActivationKeyFactory.StoreNewRootKeepsValid` | java/code/src/com/redhat/rhn/domain/token/ActivationKeyFactory.java:164 | saving a root key under a new key string with the next token id keeps the table invariant: rows under their own key, issued token ids, one root key per token |
| `ActivationKeyFactory.KeyRegistry.CreateNewKey` | java/code/src/com/redhat/rhn/domain/token/ActivationKeyFactory.java:113-173 | the outcome per case: a bad character in the sanitised candidate gives `InvalidChars`; an existing candidate gives `Exists`; an existing prefixed string gives `StoreConflict`; otherwise success with the prefixed key. A failure leaves table, org tokens and token counter unchanged. A success adds exactly the new row. The org's token becomes the new token if and only if `universalDefault`. The row's fields are as `PopulateKey` states. The stored key has no bad character. The row is then found by `lookupByKey` and `lookupByToken` |
| `ActivationKeyFactory.KeyRegistry.CreateNewKeyWithNote` | java/code/src/com/redhat/rhn/domain/token/ActivationKeyFactory.java:92-94 | the two-argument form is the full form with a null server, an empty key, usage limit 0, no base channel and no universal default: it generates the key; a bad character gives `InvalidChars`, an existing key `Exists`, and it never fails on a store conflict; a failure writes nothing; a success adds exactly the new row, takes the next token id, leaves the org tokens unchanged, and gives the row the fields `PopulateKey` states for these arguments (the user as creator, the user's org, contact method 0, no kickstart session, no channel, entitlement `{enterprise}`) |
| `ActivationKeyFactory.KeyRegistry.LookupByKey` | java/code/src/com/redhat/rhn/domain/token/ActivationKeyFactory.java:57-66 | null finds nothing; otherwise the result is the row with exactly that key string, or nothing if there is none |
| `ActivationKeyFactory.KeyRegistry.LookupByToken` | java/code/src/com/redhat/rhn/domain/token/ActivationKeyFactory.java:74-82 | null finds nothing; a result is a row of the table holding that token with no kickstart session; no result means no such row exists |
| `ActivationKeyFactory.KeyRegistry.LookupById` | java/code/src/com/redhat/rhn/domain/token/ActivationKeyFactory.java:311-313 | nothing when the token lookup finds nothing; otherwise the root key of the token found, and nothing only when that token has no root key in the table |
| `ActivationKeyFactory.KeyRegistry.LookupByServer` | java/code/src/com/redhat/rhn/domain/token/ActivationKeyFactory.java:248-254 | null when the server is null; otherwise exactly the rows bound to that server's id |
| `ActivationKeyFactory.BoundKeys` | java/code/src/com/redhat/rhn/domain/token/ActivationKeyFactory.java:273-278 | the key strings of the rows bound to the server id; a null id matches none |
| `ActivationKeyFactory.KeyRegistry.RemoveKeysForServer` | java/code/src/com/redhat/rhn/domain/token/ActivationKeyFactory.java:273-278 | removes exactly the rows bound to the server and returns their count, which is also the drop in table size; afterwards no row is bound to it and `lookupByServer` finds none; org tokens unchanged |
| `ActivationKeyFactory.RemovedRowCount` | java/code/src/com/redhat/rhn/domain/token/ActivationKeyFactory.java:277 | deleting a set of present key strings removes exactly that many rows |
| `ActivationKeyProperties.RemovingServerKeysIsIdempotent` | java/code/src/com/redhat/rhn/domain/token/ActivationKeyFactory.java:273-278 | after the removal no row is bound to the server, so a second removal deletes nothing and counts 0 |
| `ActivationKeyFactory.KeyRegistry.RemoveKey` | java/code/src/com/redhat/rhn/domain/token/ActivationKeyFactory.java:284-292 | null is a no-op; otherwise exactly the row with the key's string is removed and can no longer be looked up; nothing else changes |

## Left out

- Hibernate session, named queries, query caching and the SQL write modes.
  They are replaced by reads and writes on the `keys` map. The SQL text is not
  part of this model, so lookup and delete semantics follow the doc comments.
- `lookupByKickstartSession`, `lookupByActivatedServer` and
  `listAssociatedKickstarts`. They depend on kickstart-session,
  activation-history and kickstart relations that are not part of this model.
- `ActivationKey.sanitize` and `Scrubber.scrub`. Their code is not part of
  this model, so they are parameters with nothing assumed.
- `UUID.randomUUID()`. Randomness becomes the `uuid` parameter. The length of
  its text is not asserted.
- `ServerFactory.findContactMethodById`. Only its id, 0, is recorded.
- `OrgFactory.save`. Only the org's token field is recorded.
- Logging.
- `InvalidTokenException`. It is a constant fault: code 11000, label
  `invalidToken`, message "Invalid token", optionally a cause. It has no
  behaviour to verify.
- Concurrency and transaction isolation around the uniqueness check. These
  belong to the database.
- When Hibernate flushes a save. A duplicate stored key is reported as
  `StoreConflict` at the save, with nothing written.
- Entities are values. Tokens, servers, orgs and users are not shared mutable
  objects. The org keeps the id of its default token, not a reference.
- Null `user` and a null key passed directly to `validateKeyName` would throw
  a `NullPointerException`. The parameter types exclude them.
- The usage limit is a nullable `Long`. It is modelled as an unbounded
  optional integer.
- `lookupByServer` returns a list. It is modelled as a set, because the query
  order is not visible.
- `removeKeysForServer(null)`. The SQL is not visible. The model assumes SQL
  equality with NULL matches no row, so nothing is removed and the count is 0.
- Deleting a key that is some org's universal default. Foreign-key behaviour
  is not visible, so `orgTokens` is left as it was.
- JavaStrings.RemoveAll: the contract fixes how often each character occurs
  in the result. The order of the kept characters is stated by the lemma
  `RemoveAllAppend`, not by the contract itself.
- ActivationKeyFactory.GenerateKey: the same holds. The contract gives the
  character counts of the UUID text; their order follows from
  `RemoveAllAppend`.
- ActivationKey's constructor is not part of this model. `BlankKey` assumes
  that a new key starts with a new token that has no channel and no
  entitlement. The exact channel and entitlement sets that `PopulateKey` and
  `createNewKey` promise rest on that assumption.
- Keys that belong to a kickstart session. The kickstart code that creates
  them is not part of this model, so every row the model stores is a root
  key, and the session filter of `lookupByToken` only matters for tables
  built outside the model.
