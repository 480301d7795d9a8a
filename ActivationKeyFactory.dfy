/** The activation-key registry: creation with key-name normalisation and
    validation, entitlement defaulting, lookups and removals, over an
    in-memory key table that stands for the persistence layer. */
module ActivationKeyFactory {
  import opened Wrappers
  import opened JavaStrings

  type OrgId = int
  type UserId = int
  type ServerId = int
  type TokenId = nat
  type SessionId = int

  /** The note a key gets when none is given. */
  const DefaultDescription: string := "None"
  /** Marks a key bound to one server as a re-registration key. */
  const ReRegistrationPrefix: string := "re-"
  /** The id of the server contact method every new key gets. */
  const DefaultContactMethod: nat := 0
  /** The characters a key name may not contain, in the order they are tried. */
  const BadChars: seq<char> := [',', '"']

  /** A server group type (an entitlement), known by its name. */
  datatype GroupType = GroupType(name: string)
  /** The enterprise entitlement every key gets when there is no server to copy from. */
  const EnterpriseEntitled: GroupType := GroupType("enterprise_entitled")

  datatype Channel = Channel(id: int)
  datatype User = User(id: UserId, org: OrgId)
  /** What the factory reads of a server: its id, whether it only has the
      bootstrap entitlement, and the group types it is entitled to. */
  datatype Server = Server(id: ServerId, bootstrap: bool, entitledGroupTypes: seq<GroupType>)
  /** The token a key owns: its identity, config deployment and channels. */
  datatype Token = Token(id: TokenId, deployConfigs: bool, channels: set<Channel>)

  /** One row of the key table. */
  datatype KeyRecord = KeyRecord(
    key: string,
    token: Token,
    creator: UserId,
    org: OrgId,
    server: Option<Server>,
    note: string,
    disabled: bool,
    usageLimit: Option<int>,
    contactMethod: nat,
    entitlements: set<GroupType>,
    kickstartSession: Option<SessionId>)

  /** The two messages `validateKeyName` raises. */
  datatype ValidationError = InvalidChars | Exists

  /** Why `createNewKey` fails: a validation error, or the store refusing a
      second row with the same key string. */
  datatype CreateError = Invalid(reason: ValidationError) | StoreConflict

  predicate HasBadChar(key: string) {
    ',' in key || '"' in key
  }

  /** The record is bound to the server with id `sid`. */
  predicate BoundTo(rec: KeyRecord, sid: ServerId) {
    rec.server.Some? && rec.server.value.id == sid
  }

  /** The record is the root key of the token with id `tid`: it holds that
      token and no kickstart session. */
  predicate IsRootOf(rec: KeyRecord, tid: TokenId) {
    rec.token.id == tid && rec.kickstartSession.None?
  }

  /** `generateKey`: the textual form of a random UUID with its hyphens
      removed. The UUID text is a parameter; nothing is assumed of it. */
  function GenerateKey(uuid: string): (r: string)
    ensures '-' !in r
    ensures forall x :: x != '-' ==> multiset(r)[x] == multiset(uuid)[x]
  {
    RemoveAll(uuid, '-')
  }

  /** The key string `createNewKey` hands to sanitisation: a generated key for
      a null or empty `key`, otherwise `key` trimmed with its spaces removed. */
  function CandidateKey(key: Option<string>, uuid: string): (r: string)
    ensures (key.None? || key.value == "") ==> '-' !in r
    ensures key.Some? && key.value != "" ==>
      ' ' !in r && (r == [] || (!IsTrimmable(r[0]) && !IsTrimmable(r[|r| - 1])))
    // every character of the trimmed key other than a space is kept, as often
    // as it occurs there (their order is `RemoveAllAppend`)
    ensures key.Some? && key.value != "" ==>
      forall x :: x != ' ' ==> multiset(r)[x] == multiset(Trim(key.value))[x]
  {
    if key.None? || key.value == "" then
      GenerateKey(uuid)
    else
      var t := Trim(key.value);
      if t == [] then RemoveAll(t, ' ')
      else RemoveAllKeepsLast(t, ' '); RemoveAll(t, ' ')
  }

  /** The key string stored for a validated candidate: prefixed with `re-`
      when the key is bound to a server. It has a bad character exactly when
      the candidate has one. */
  function StoredKey(server: Option<Server>, candidate: string): (r: string)
    ensures HasBadChar(r) <==> HasBadChar(candidate)
    ensures server.None? ==> r == candidate
    ensures server.Some? ==>
      && |r| == |ReRegistrationPrefix| + |candidate|
      && r[..|ReRegistrationPrefix|] == ReRegistrationPrefix
      && r[|ReRegistrationPrefix|..] == candidate
  {
    if server.Some? then ReRegistrationPrefix + candidate else candidate
  }

  /** The entitlements a new key starts with: every group type of a server
      that is given and not bootstrap-only, otherwise enterprise alone. */
  function DefaultEntitlements(server: Option<Server>): (r: set<GroupType>)
    ensures server.Some? && !server.value.bootstrap ==>
      forall g :: g in r <==> g in server.value.entitledGroupTypes
    ensures server.None? || server.value.bootstrap ==> r == {EnterpriseEntitled}
  {
    if server.Some? && !server.value.bootstrap then
      set g | g in server.value.entitledGroupTypes
    else
      {EnterpriseEntitled}
  }

  /** The key strings of the table bound to the server with id `sid`; a null
      id matches no row. */
  function BoundKeys(keys: map<string, KeyRecord>, sid: Option<ServerId>): (r: set<string>)
    ensures r <= keys.Keys
    ensures sid.Some? ==> forall k :: k in keys ==> (k in r <==> BoundTo(keys[k], sid.value))
    ensures sid.None? ==> r == {}
  {
    if sid.None? then {} else set k | k in keys && BoundTo(keys[k], sid.value)
  }

  /** A fresh `new ActivationKey()` with a new token: no entitlements, no
      channels, no kickstart session. Its other fields are all set by
      `createNewKey` before it is stored. */
  function BlankKey(tid: TokenId): (r: KeyRecord)
    ensures r.token.id == tid && r.token.channels == {} && !r.token.deployConfigs
    ensures r.entitlements == {} && r.kickstartSession.None?
  {
    KeyRecord("", Token(tid, false, {}), 0, 0, None, "", false, None,
              DefaultContactMethod, {}, None)
  }

  /** The note `createNewKey` stores before scrubbing: the given note, or the
      default description when it is null, empty or whitespace only. The note
      stored is never blank. */
  function NoteToUse(note: Option<string>): (r: string)
    ensures !IsBlank(Some(r))
    ensures !IsBlank(note) ==> r == note.value
    ensures IsBlank(note) ==> r == DefaultDescription
  {
    if IsBlank(note) then
      assert !IsWhitespace(DefaultDescription[0]);
      DefaultDescription
    else note.value
  }

  /** The key table's invariant: each row is filed under its own key string,
      every token id was handed out already, and a token has at most one
      root key. Keys that belong to a kickstart session are created by the
      kickstart code, which is not part of this model, so every row this
      model stores is a root key. */
  ghost predicate ValidTable(keys: map<string, KeyRecord>, nextTokenId: TokenId) {
    && (forall k :: k in keys ==> keys[k].key == k && keys[k].token.id < nextTokenId)
    && (forall k1, k2 ::
          k1 in keys && k2 in keys && keys[k1].kickstartSession.None? && IsRootOf(keys[k2], keys[k1].token.id)
          ==> k1 == k2)
  }

  /** Saving a root key with a new key string and the next token id keeps the
      invariant, and the new row is the only root key of its token. */
  lemma StoreNewRootKeepsValid(keys: map<string, KeyRecord>, nextTokenId: TokenId, rec: KeyRecord)
    requires ValidTable(keys, nextTokenId)
    requires rec.key !in keys && rec.token.id == nextTokenId && rec.kickstartSession.None?
    ensures ValidTable(keys[rec.key := rec], nextTokenId + 1)
  {
  }

  /** The fields `createNewKey` gives a new row: the key string, a new token
      that deploys no configs and holds the base channel if one is given,
      the creator and the creator's org, the bound server, the scrubbed note
      (the default description for a blank one), enabled, the usage limit,
      the default contact method, the default entitlements and no kickstart
      session. */
  ghost predicate IsNewKey(rec: KeyRecord, key: string, tid: TokenId, user: User, server: Option<Server>,
                           note: Option<string>, usageLimit: Option<int>, baseChannel: Option<Channel>,
                           scrub: string -> string)
  {
    && rec.key == key
    && rec.token.id == tid
    && !rec.token.deployConfigs
    && (forall ch :: ch in rec.token.channels <==> baseChannel == Some(ch))
    && rec.creator == user.id && rec.org == user.org && rec.server == server
    && rec.note == scrub(NoteToUse(note))
    && !rec.disabled
    && rec.usageLimit == usageLimit
    && rec.contactMethod == DefaultContactMethod
    && rec.entitlements == DefaultEntitlements(server)
    && rec.kickstartSession.None?
  }

  /** Adds the server's group types to the key one at a time, as the stream
      over `getEntitledGroupTypes` does; duplicates in the list collapse. */
  method AddEntitlements(rec: KeyRecord, types: seq<GroupType>) returns (r: KeyRecord)
    ensures r == rec.(entitlements := rec.entitlements + set g | g in types)
  {
    r := rec;
    for i := 0 to |types|
      invariant r == rec.(entitlements := rec.entitlements + set g | g in types[..i])
    {
      assert types[..i + 1] == types[..i] + [types[i]];
      r := r.(entitlements := r.entitlements + {types[i]});
    }
    assert types[..|types|] == types;
  }

  /** Fills a `new ActivationKey()` whose token gets id `tid` by the setter
      calls of `createNewKey`, from the key string to the contact method. */
  method PopulateKey(keyToUse: string, tid: TokenId, user: User, server: Option<Server>,
                     note: Option<string>, usageLimit: Option<int>, baseChannel: Option<Channel>,
                     scrub: string -> string)
    returns (newKey: KeyRecord)
    ensures IsNewKey(newKey, keyToUse, tid, user, server, note, usageLimit, baseChannel, scrub)
  {
    newKey := BlankKey(tid);
    newKey := newKey.(key := keyToUse, creator := user.id, org := user.org, server := server);
    newKey := newKey.(note := scrub(NoteToUse(note)));
    newKey := newKey.(token := newKey.token.(deployConfigs := false));
    newKey := newKey.(disabled := false, usageLimit := usageLimit);

    if baseChannel.Some? {
      newKey := newKey.(token := newKey.token.(channels := newKey.token.channels + {baseChannel.value}));
    }

    if server.Some? && !server.value.bootstrap {
      newKey := AddEntitlements(newKey, server.value.entitledGroupTypes);
    } else {
      newKey := newKey.(entitlements := newKey.entitlements + {EnterpriseEntitled});
    }

    newKey := newKey.(contactMethod := DefaultContactMethod);
  }

  /** The key table with its owning orgs' universal default tokens. */
  class KeyRegistry {
    /** The activation-key rows, by key string, which is unique in the table. */
    var keys: map<string, KeyRecord>
    /** Each org's universal default token, by org; an org without one is absent. */
    var orgTokens: map<OrgId, TokenId>
    /** The next token id the store hands out. */
    var nextTokenId: TokenId

    ghost predicate Valid()
      reads this
    {
      ValidTable(keys, nextTokenId)
    }

    constructor ()
      ensures Valid()
      ensures keys == map[] && orgTokens == map[] && nextTokenId == 0
    {
      keys := map[];
      orgTokens := map[];
      nextTokenId := 0;
    }

    /** `lookupByKey`: the row with exactly this key string; null finds nothing. */
    function LookupByKey(key: Option<string>): (r: Option<KeyRecord>)
      reads this
      ensures key.None? ==> r.None?
      ensures r.Some? <==> key.Some? && key.value in keys
      ensures r.Some? ==> r.value == keys[key.value]
    {
      if key.None? then None
      else if key.value in keys then Some(keys[key.value])
      else None
    }

    /** `lookupByToken`: the root key of the token (same token id, no
        kickstart session); a null token finds nothing. No operation of this
        model creates a session key, so the session filter only matters for
        tables built outside it. */
    function LookupByToken(token: Option<Token>): (r: Option<KeyRecord>)
      reads this
      requires Valid()
      ensures token.None? ==> r.None?
      ensures r.Some? ==> token.Some? && r.value in keys.Values && IsRootOf(r.value, token.value.id)
      ensures token.Some? && r.None? ==> forall k :: k in keys ==> !IsRootOf(keys[k], token.value.id)
    {
      if token.None? then None
      else if exists k :: k in keys && IsRootOf(keys[k], token.value.id) then
        var k :| k in keys && IsRootOf(keys[k], token.value.id);
        Some(keys[k])
      else None
    }

    /** `lookupById`: the token with this id in this org, resolved to its root
        key; the token lookup is a parameter. */
    function LookupById(id: int, org: OrgId, tokenLookup: (int, OrgId) -> Option<Token>): (r: Option<KeyRecord>)
      reads this
      requires Valid()
      ensures tokenLookup(id, org).None? ==> r.None?
      ensures r.Some? ==> IsRootOf(r.value, tokenLookup(id, org).value.id) && r.value in keys.Values
      ensures tokenLookup(id, org).Some? && r.None? ==>
        forall k :: k in keys ==> !IsRootOf(keys[k], tokenLookup(id, org).value.id)
    {
      LookupByToken(tokenLookup(id, org))
    }

    /** `lookupByServer`: every key bound to the server; a null server gives null. */
    function LookupByServer(server: Option<Server>): (r: Option<set<KeyRecord>>)
      reads this
      ensures r.None? <==> server.None?
      ensures r.Some? ==> forall rec :: rec in r.value <==> rec in keys.Values && BoundTo(rec, server.value.id)
    {
      if server.None? then None
      else Some(set k | k in keys && BoundTo(keys[k], server.value.id) :: keys[k])
    }

    /** `validateKeyName`: a bad character is reported first, then an
        existing key with this string; nothing is written. */
    method ValidateKeyName(key: string) returns (r: Outcome<ValidationError>)
      ensures r == Fail(InvalidChars) <==> HasBadChar(key)
      ensures r == Fail(Exists) <==> !HasBadChar(key) && LookupByKey(Some(key)).Some?
      ensures r == Pass <==> !HasBadChar(key) && LookupByKey(Some(key)).None?
    {
      var nameOk := true;
      var i := 0;
      while i < |BadChars|
        invariant 0 <= i <= |BadChars|
        invariant nameOk
        invariant forall j :: 0 <= j < i ==> BadChars[j] !in key
      {
        if BadChars[i] in key {
          nameOk := false;
          break;
        }
        i := i + 1;
      }
      if !nameOk {
        return Fail(InvalidChars);
      }
      assert BadChars[0] !in key && BadChars[1] !in key;
      if LookupByKey(Some(key)).Some? {
        return Fail(Exists);
      }
      return Pass;
    }

    /** `createNewKey`, the full form. `uuid` is the random UUID text,
        `sanitize` the org's key-name normalisation and `scrub` the note
        scrubber; all three come from outside the factory. */
    method CreateNewKey(user: User, server: Option<Server>, key: Option<string>, note: Option<string>,
                        usageLimit: Option<int>, baseChannel: Option<Channel>, universalDefault: bool,
                        uuid: string, sanitize: (OrgId, string) -> string, scrub: string -> string)
      returns (r: Result<KeyRecord, CreateError>)
      requires Valid()
      modifies this
      ensures Valid()
      // the outcome: validation of the unprefixed candidate, then the store
      ensures var candidate := sanitize(user.org, CandidateKey(key, uuid));
        && (HasBadChar(candidate) ==> r == Failure(Invalid(InvalidChars)))
        && (!HasBadChar(candidate) && candidate in old(keys) ==> r == Failure(Invalid(Exists)))
        && (!HasBadChar(candidate) && candidate !in old(keys) && StoredKey(server, candidate) in old(keys) ==>
              r == Failure(StoreConflict))
        && (!HasBadChar(candidate) && candidate !in old(keys) && StoredKey(server, candidate) !in old(keys) ==>
              r.Success? && r.value.key == StoredKey(server, candidate))
      // so a stored key never holds a bad character
      ensures r.Success? ==> !HasBadChar(r.value.key)
      // a failure writes nothing
      ensures r.Failure? ==>
        keys == old(keys) && orgTokens == old(orgTokens) && nextTokenId == old(nextTokenId)
      // a success adds one row and touches the org only for a universal default
      ensures r.Success? ==>
        && r.value.key !in old(keys)
        && keys == old(keys)[r.value.key := r.value]
        && nextTokenId == old(nextTokenId) + 1
        && orgTokens == (if universalDefault then old(orgTokens)[user.org := r.value.token.id]
                         else old(orgTokens))
      // the fields of the new row
      ensures r.Success? ==>
        IsNewKey(r.value, r.value.key, old(nextTokenId), user, server, note, usageLimit, baseChannel, scrub)
      // the new row is found by its key string and as the root key of its token
      ensures r.Success? ==>
        LookupByKey(Some(r.value.key)) == Some(r.value) && LookupByToken(Some(r.value.token)) == Some(r.value)
    {
      var keyToUse: string;
      if key.None? || key.value == "" {
        keyToUse := GenerateKey(uuid);
      } else {
        keyToUse := RemoveAll(Trim(key.value), ' ');
      }
      assert keyToUse == CandidateKey(key, uuid);
      keyToUse := sanitize(user.org, keyToUse);
      ghost var candidate := keyToUse;
      var check := ValidateKeyName(keyToUse);
      if check.Fail? {
        return Failure(Invalid(check.error));
      }
      if server.Some? {
        keyToUse := ReRegistrationPrefix + keyToUse;
      }
      assert keyToUse == StoredKey(server, candidate);

      var newKey := PopulateKey(keyToUse, nextTokenId, user, server, note, usageLimit, baseChannel, scrub);
      if newKey.key in keys {
        // the store's primary key refuses the row and the transaction is rolled back
        return Failure(StoreConflict);
      }
      StoreNewRootKeepsValid(keys, nextTokenId, newKey);
      keys := keys[newKey.key := newKey];
      nextTokenId := nextTokenId + 1;

      if universalDefault {
        orgTokens := orgTokens[user.org := newKey.token.id];
      }
      r := Success(newKey);
    }

    /** `createNewKey(user, note)`: the full form with no server, an empty key,
        usage limit 0, no base channel and no universal default. */
    method CreateNewKeyWithNote(user: User, note: Option<string>,
                                uuid: string, sanitize: (OrgId, string) -> string, scrub: string -> string)
      returns (r: Result<KeyRecord, CreateError>)
      requires Valid()
      modifies this
      ensures Valid()
      ensures var candidate := sanitize(user.org, GenerateKey(uuid));
        && (HasBadChar(candidate) ==> r == Failure(Invalid(InvalidChars)))
        && (!HasBadChar(candidate) && candidate in old(keys) ==> r == Failure(Invalid(Exists)))
        && (r.Failure? <==> HasBadChar(candidate) || candidate in old(keys))
        && r != Failure(StoreConflict)
        && (r.Success? ==> r.value.key == candidate)
      ensures r.Failure? ==>
        keys == old(keys) && orgTokens == old(orgTokens) && nextTokenId == old(nextTokenId)
      ensures r.Success? ==>
        && keys == old(keys)[r.value.key := r.value]
        && orgTokens == old(orgTokens)
        && nextTokenId == old(nextTokenId) + 1
      // the fields of the full form with no server, usage limit 0 and no channel
      ensures r.Success? ==>
        IsNewKey(r.value, r.value.key, old(nextTokenId), user, None, note, Some(0), None, scrub)
      ensures r.Success? ==>
        && r.value.token.channels == {}
        && r.value.entitlements == {EnterpriseEntitled}
    {
      assert CandidateKey(Some(""), uuid) == GenerateKey(uuid);
      r := CreateNewKey(user, None, Some(""), note, Some(0), None, false, uuid, sanitize, scrub);
    }

    /** `removeKey`: deletes the row with the key's string; null is a no-op. */
    method RemoveKey(key: Option<KeyRecord>)
      requires Valid()
      modifies this
      ensures Valid()
      ensures key.None? ==> keys == old(keys)
      ensures key.Some? ==> keys == old(keys) - {key.value.key}
      ensures key.Some? ==> LookupByKey(Some(key.value.key)).None?
      ensures orgTokens == old(orgTokens) && nextTokenId == old(nextTokenId)
    {
      if key.Some? {
        keys := keys - {key.value.key};
      }
    }

    /** `removeKeysForServer`: deletes every row bound to the server and
        returns how many there were, after which none is left. */
    method RemoveKeysForServer(sid: Option<ServerId>) returns (count: nat)
      requires Valid()
      modifies this
      ensures Valid()
      ensures keys == old(keys) - old(BoundKeys(keys, sid))
      ensures count == |old(BoundKeys(keys, sid))| == |old(keys)| - |keys|
      ensures BoundKeys(keys, sid) == {}
      ensures sid.Some? ==> forall s: Server :: s.id == sid.value ==> LookupByServer(Some(s)) == Some({})
      ensures orgTokens == old(orgTokens) && nextTokenId == old(nextTokenId)
    {
      var doomed := BoundKeys(keys, sid);
      RemovedRowCount(keys, doomed);
      keys := keys - doomed;
      count := |doomed|;
      forall srv: Server | sid == Some(srv.id) ensures LookupByServer(Some(srv)) == Some({}) {
        var found := LookupByServer(Some(srv)).value;
        forall rec | rec in keys.Values ensures !BoundTo(rec, srv.id) {
          var k :| k in keys && keys[k] == rec;
          assert k !in BoundKeys(keys, sid);
        }
        assert found == {};
        assert LookupByServer(Some(srv)).Some?;
      }
    }
  }

  /** Deleting a set of present key strings removes exactly that many rows. */
  lemma RemovedRowCount(keys: map<string, KeyRecord>, doomed: set<string>)
    requires doomed <= keys.Keys
    ensures |keys - doomed| == |keys| - |doomed|
  {
  }
}
