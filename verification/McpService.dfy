/**
 The MCP server service (aicoder/mcp_service.py) over its two stores: the keyring (aicoder/mcp_credentials.py)
 and the registry file (aicoder/mcp_registry.py). Any forward step may fail, and forward reads of the keyring fail
 quietly, as if there were no secret; the steps of a rollback succeed.
 */
module McpService {
  import opened Wrappers

  datatype Field =
    | ApiKey | BearerToken | BasicPassword | CustomHeader
    | OauthClientSecret | OauthAccessToken | OauthRefreshToken | OauthExpiresAt
    | LegacyToken | LegacyPassword | LegacyClientSecret
    | Unsupported(name: string)

  /** The fields the service manages; it never touches another keyring entry. */
  const SECRET_FIELDS: set<Field> := {
    ApiKey, BearerToken, BasicPassword, CustomHeader,
    OauthClientSecret, OauthAccessToken, OauthRefreshToken, OauthExpiresAt,
    LegacyToken, LegacyPassword, LegacyClientSecret}

  /** The fields an OAuth exchange writes. */
  const TOKEN_FIELDS: set<Field> := {OauthAccessToken, OauthRefreshToken, OauthExpiresAt}

  datatype AuthType = NoAuth | ApiKeyAuth | BearerAuth | BasicAuth | CustomHeaderAuth | Oauth2

  datatype Config = Config(name: string, authType: AuthType, settings: seq<string>)

  datatype Account = Account(server: string, field: Field)

  type Secrets = map<Account, string>

  type Credentials = map<Field, string>

  type Servers = map<string, Config>

  // ---- specification ----

  /** A stored secret, or "" when there is none: what a quiet read returns. */
  function At(secrets: Secrets, a: Account): string {
    if a in secrets then secrets[a] else ""
  }

  function Given(values: Credentials, f: Field): string {
    if f in values then values[f] else ""
  }

  /** No entry is empty; the only writer refuses empty values. */
  predicate NoEmptySecrets(secrets: Secrets) {
    forall a | a in secrets :: secrets[a] != ""
  }

  function CredentialField(a: AuthType): Option<Field> {
    match a
    case ApiKeyAuth => Some(ApiKey)
    case BearerAuth => Some(BearerToken)
    case BasicAuth => Some(BasicPassword)
    case CustomHeaderAuth => Some(CustomHeader)
    case _ => None
  }

  /** The fields that belong to an authentication mode. */
  predicate Kept(a: AuthType, f: Field) {
    || CredentialField(a) == Some(f)
    || (a.Oauth2? && (f == OauthClientSecret || f in TOKEN_FIELDS))
  }

  predicate Managed(server: string, a: Account) {
    a.server == server && a.field in SECRET_FIELDS
  }

  /**
   The forward steps that fail: the look at the required credential, the writes and deletions of these fields,
   contacting the server, writing the registry, and dropping the cached client.
   */
  datatype Faults = Faults(look: bool, writes: set<Field>, deletes: set<Field>, contact: bool, entry: bool, drop: bool)

  const NO_FAULTS: Faults := Faults(false, {}, {}, false, false, false)

  /** The fields the keyring fails to read while the snapshot is taken, and while the stored fields are listed. */
  datatype Unread = Unread(snapshot: set<Field>, status: set<Field>)

  /** `snapshot_mcp_secrets`: the stored secrets but those that could not be read. */
  function SnapshotOf(secrets: Secrets, server: string, missed: set<Field>): Credentials {
    map f | f in SECRET_FIELDS && f !in missed && At(secrets, Account(server, f)) != ""
      :: At(secrets, Account(server, f))
  }

  /** No field that could not be read holds a secret. */
  predicate NoneMissed(secrets: Secrets, server: string, missed: set<Field>) {
    forall f | f in missed && f in SECRET_FIELDS :: At(secrets, Account(server, f)) == ""
  }

  /** The keyring is as before, but for the secrets that could not be read: these are gone. */
  ghost predicate LosesExactly(before: Secrets, now: Secrets, server: string, missed: set<Field>) {
    forall a: Account :: At(now, a) == if Managed(server, a) && a.field in missed then "" else At(before, a)
  }

  /** Only managed fields of one server changed. */
  ghost predicate TouchesOnly(before: Secrets, now: Secrets, server: string) {
    forall a: Account | !Managed(server, a) :: At(now, a) == At(before, a)
  }

  /** Some fields of one server were set, nothing else changed. */
  ghost predicate Overlaid(before: Secrets, now: Secrets, server: string, values: Credentials) {
    forall a: Account ::
      At(now, a) == if a.server == server && a.field in values then values[a.field] else At(before, a)
  }

  /** Of the managed fields of one server exactly the snapshot is stored, nothing else changed. */
  ghost predicate RestoredTo(before: Secrets, now: Secrets, server: string, snapshot: Credentials) {
    forall a: Account :: At(now, a) == if Managed(server, a) then Given(snapshot, a.field) else At(before, a)
  }

  lemma SameSecrets(a: Secrets, b: Secrets)
    requires NoEmptySecrets(a) && NoEmptySecrets(b) && forall k: Account :: At(a, k) == At(b, k)
    ensures a == b
  {
    forall k: Account
      ensures k in a <==> k in b
    {
      assert At(a, k) == At(b, k);
    }
    forall k | k in a
      ensures a[k] == b[k]
    {
      assert At(a, k) == At(b, k);
    }
  }

  /**
   Restoring a snapshot after changes to one server loses exactly the secrets that could not be read when the snapshot
   was taken, so the old keyring is back exactly when none was missed.
   */
  lemma RestoreIsExactExactlyWhen(before: Secrets, changed: Secrets, now: Secrets, server: string, missed: set<Field>)
    requires NoEmptySecrets(before) && NoEmptySecrets(now) && TouchesOnly(before, changed, server)
    requires RestoredTo(changed, now, server, SnapshotOf(before, server, missed))
    ensures LosesExactly(before, now, server, missed)
    ensures now == before <==> NoneMissed(before, server, missed)
  {
    var snapshot := SnapshotOf(before, server, missed);
    forall a: Account
      ensures At(now, a) == if Managed(server, a) && a.field in missed then "" else At(before, a)
    {
      assert At(now, a) == if Managed(server, a) then Given(snapshot, a.field) else At(changed, a);
    }
    LostExactlyWhenMissed(before, now, server, missed);
  }

  lemma LostExactlyWhenMissed(before: Secrets, now: Secrets, server: string, missed: set<Field>)
    requires NoEmptySecrets(before) && NoEmptySecrets(now) && LosesExactly(before, now, server, missed)
    ensures now == before <==> NoneMissed(before, server, missed)
  {
    if NoneMissed(before, server, missed) {
      SameSecrets(now, before);
    }
    if now == before {
      forall f | f in missed && f in SECRET_FIELDS
        ensures At(before, Account(server, f)) == ""
      {
        assert Managed(server, Account(server, f));
      }
    }
  }

  /**
   A validator never renames a server or changes its mode, never accepts the reserved name, and accepts what it returns.
   */
  ghost predicate SoundValidator(validate: Config -> Option<Config>) {
    forall c :: validate(c).Some? ==>
      var v := validate(c).value;
      v.name == c.name && v.authType == c.authType && v.name != "triforce" && validate(v) == Some(v)
  }

  /** An absent entry, or one that can be written back as it is. */
  predicate Restorable(validate: Config -> Option<Config>, servers: Servers, name: string) {
    name in servers ==> servers[name].name == name && validate(servers[name]) == Some(servers[name])
  }

  /** Every entry is one the registry could have written. */
  predicate Canonical(validate: Config -> Option<Config>, servers: Servers) {
    forall name | name in servers :: Restorable(validate, servers, name)
  }

  /** In a canonical registry every entry can be put back; an empty one is canonical, and every entry written keeps it so. */
  lemma CanonicalRegistries(validate: Config -> Option<Config>, servers: Servers, config: Config)
    requires SoundValidator(validate) && validate(config).Some?
    ensures Canonical(validate, map[])
    ensures Canonical(validate, servers) ==>
              && Canonical(validate, servers[config.name := validate(config).value])
              && forall name | name in servers :: servers[name].name == name && validate(servers[name]) == Some(servers[name])
  {
    var v := validate(config).value;
    assert validate(v) == Some(v) && v.name == config.name;
    if Canonical(validate, servers) {
      var after := servers[config.name := v];
      forall name | name in after
        ensures Restorable(validate, after, name)
      {
        assert name != config.name ==> Restorable(validate, servers, name);
      }
      forall name | name in servers
        ensures servers[name].name == name && validate(servers[name]) == Some(servers[name])
      {
        assert Restorable(validate, servers, name);
      }
    }
  }

  // ---- the stores ----

  class Keyring {
    var secrets: Secrets

    constructor (secrets: Secrets)
      ensures this.secrets == secrets
    {
      this.secrets := secrets;
    }

    /** `get_mcp_secret`: a read that fails is quiet. */
    method Get(server: string, f: Field, readable: bool) returns (value: string)
      ensures value == if readable then At(secrets, Account(server, f)) else ""
    {
      var a := Account(server, f);
      value := if readable && a in secrets then secrets[a] else "";
    }

    /** `snapshot_mcp_secrets`: field by field, keeping what can be read. */
    method Snapshot(server: string, missed: set<Field>) returns (snapshot: Credentials)
      ensures snapshot == SnapshotOf(secrets, server, missed)
    {
      snapshot := map[];
      var pending := SECRET_FIELDS;
      while pending != {}
        invariant pending <= SECRET_FIELDS
        invariant var full := SnapshotOf(secrets, server, missed);
                  snapshot == map f | f in full && f !in pending :: full[f]
        decreases pending
      {
        var f :| f in pending;
        pending := pending - {f};
        var value := Get(server, f, f !in missed);
        if value != "" { snapshot := snapshot[f := value]; }
      }
    }

    method Set(server: string, f: Field, value: string, fails: bool) returns (ok: bool)
      modifies this
      ensures secrets == if ok then old(secrets)[Account(server, f) := value] else old(secrets)
      ensures ok <==> value != "" && !fails
    {
      if value == "" || fails { return false; }
      secrets := secrets[Account(server, f) := value];
      return true;
    }

    method Delete(server: string, f: Field, fails: bool) returns (ok: bool)
      modifies this
      ensures secrets == if ok then old(secrets) - {Account(server, f)} else old(secrets)
      ensures ok <==> !fails
    {
      if fails { return false; }
      secrets := secrets - {Account(server, f)};
      return true;
    }

    /** `restore_mcp_secrets`: field by field, in no particular order. */
    method Restore(server: string, snapshot: Credentials)
      requires NoEmptySecrets(secrets)
      requires forall f | f in snapshot :: f in SECRET_FIELDS && snapshot[f] != ""
      modifies this
      ensures NoEmptySecrets(secrets) && RestoredTo(old(secrets), secrets, server, snapshot)
    {
      ghost var before := secrets;
      var wanted := SECRET_FIELDS;
      while wanted != {}
        invariant wanted <= SECRET_FIELDS && NoEmptySecrets(secrets)
        invariant forall a: Account :: At(secrets, a) ==
                    if Managed(server, a) && a.field !in wanted then Given(snapshot, a.field) else At(before, a)
        decreases wanted
      {
        hide Managed;
        var f :| f in wanted;
        OneFieldLess(server, wanted, f);
        wanted := wanted - {f};
        var current := Get(server, f, true);
        if f in snapshot {
          if current != snapshot[f] {
            var ok := Set(server, f, snapshot[f], false);
          }
        } else if current != "" {
          var ok := Delete(server, f, false);
        }
      }
    }
  }

  lemma OneFieldLess(server: string, wanted: set<Field>, f: Field)
    requires wanted <= SECRET_FIELDS && f in wanted
    ensures forall a: Account ::
      (Managed(server, a) && a.field !in wanted - {f}) <==> ((Managed(server, a) && a.field !in wanted) || a == Account(server, f))
  {
  }

  /** How a removal ends; a failure may come before anything changed or be rolled back. */
  datatype Removal = Removed | NotThere | RemovalFailed | RolledBack

  class Registry {
    const validate: Config -> Option<Config>
    var servers: Servers

    constructor (validate: Config -> Option<Config>, servers: Servers)
      ensures this.validate == validate && this.servers == servers
    {
      this.validate := validate;
      this.servers := servers;
    }

    method Get(name: string) returns (r: Option<Config>)
      ensures r == if name != "triforce" && name in servers then Some(servers[name]) else None
    {
      r := if name != "triforce" && name in servers then Some(servers[name]) else None;
    }

    method Put(config: Config, fails: bool) returns (ok: bool)
      modifies this`servers
      ensures ok <==> validate(config).Some? && !fails
      ensures servers == if ok then old(servers)[validate(config).value.name := validate(config).value]
                         else old(servers)
    {
      var checked := validate(config);
      if checked.None? || fails { return false; }
      servers := servers[checked.value.name := checked.value];
      return true;
    }

    method Remove(name: string, fails: bool) returns (r: Removal)
      modifies this`servers
      ensures servers == if r == Removed then old(servers) - {name} else old(servers)
      ensures r == if name == "triforce" then RemovalFailed
                   else if name !in old(servers) then NotThere
                   else if fails then RemovalFailed
                   else Removed
    {
      if name == "triforce" { return RemovalFailed; }
      if name !in servers { return NotThere; }
      if fails { return RemovalFailed; }
      servers := servers - {name};
      return Removed;
    }
  }

  // ---- the service ----

  function Lower(s: string): string {
    if s == "" then "" else [if 'A' <= s[0] <= 'Z' then (s[0] as int + 32) as char else s[0]] + Lower(s[1..])
  }

  /** The name of the built-in profile, in any case. */
  predicate Reserved(name: string) {
    Lower(name) == "triforce"
  }

  lemma {:induction false} OthersAreNotBuiltIn(name: string)
    requires !Reserved(name)
    ensures name != "triforce"
  {
    hide Lower;
    LowerKeepsLowerCase("triforce");
  }

  lemma {:induction false} LowerKeepsLowerCase(s: string)
    requires forall i | 0 <= i < |s| :: 'a' <= s[i] <= 'z'
    ensures Lower(s) == s
  {
    if s != "" { LowerKeepsLowerCase(s[1..]); }
  }

  /** What a field should hold after a save: the supplied value or the one it had. */
  function Wanted(before: Secrets, a: Account, supplied: Credentials): string {
    if a.field in supplied then supplied[a.field] else At(before, a)
  }

  /**
   The keyring after a save: of this server the fields of its mode, each with the supplied value or the one it had (an
   OAuth server's tokens may have been renewed), the required one present; fields of other modes only where they could
   not be read when they were looked for; and nothing else touched.
   */
  ghost predicate SavedSecrets(before: Secrets, now: Secrets, config: Config, supplied: Credentials,
                               unseen: set<Field>) {
    && (forall a: Account ::
          if !Managed(config.name, a) then At(now, a) == At(before, a)
          else if !Kept(config.authType, a.field) then
            At(now, a) == if a.field in unseen then Wanted(before, a, supplied) else ""
          else if config.authType.Oauth2? && a.field in TOKEN_FIELDS then
            At(before, a) != "" || a.field in supplied ==> At(now, a) != ""
          else At(now, a) == Wanted(before, a, supplied))
    && (forall f | CredentialField(config.authType) == Some(f) :: At(now, Account(config.name, f)) != "")
  }

  /** No step of a save fails: which faults matter, and the credential the entry's mode needs. */
  ghost predicate Saves(before: Secrets, config: Config, supplied: Credentials, test: bool, unseen: set<Field>,
                  faults: Faults)
  {
    && (forall f | f in supplied :: f in SECRET_FIELDS && f !in faults.writes && supplied[f] != "")
    && (forall f | CredentialField(config.authType) == Some(f) ::
          !faults.look && Wanted(before, Account(config.name, f), supplied) != "")
    && (test ==> !faults.contact) && !faults.entry && !faults.drop
    && (forall f | f in faults.deletes && f !in unseen && f in SECRET_FIELDS && !Kept(config.authType, f) ::
          Wanted(before, Account(config.name, f), supplied) == "")
  }

  /** The field holds the supplied secret, or the one it had, and it is not empty. */
  ghost predicate Holds(before: Secrets, now: Secrets, server: string, f: Field, supplied: Credentials) {
    At(now, Account(server, f)) == Wanted(before, Account(server, f), supplied) != ""
  }

  /** No other field of the server is stored, but for those that could not be read. */
  ghost predicate NothingBut(now: Secrets, server: string, fields: set<Field>, unseen: set<Field>) {
    forall f: Field | !f.Unsupported? && f !in fields && f !in unseen :: At(now, Account(server, f)) == ""
  }

  /** What the keyring holds of a server after a save, mode by mode and field by field. */
  lemma SavedByMode(before: Secrets, now: Secrets, config: Config, supplied: Credentials, unseen: set<Field>)
    requires SavedSecrets(before, now, config, supplied, unseen)
    ensures config.authType == ApiKeyAuth ==>
              Holds(before, now, config.name, ApiKey, supplied) && NothingBut(now, config.name, {ApiKey}, unseen)
    ensures config.authType == BearerAuth ==>
              && Holds(before, now, config.name, BearerToken, supplied)
              && NothingBut(now, config.name, {BearerToken}, unseen)
    ensures config.authType == BasicAuth ==>
              && Holds(before, now, config.name, BasicPassword, supplied)
              && NothingBut(now, config.name, {BasicPassword}, unseen)
    ensures config.authType == CustomHeaderAuth ==>
              && Holds(before, now, config.name, CustomHeader, supplied)
              && NothingBut(now, config.name, {CustomHeader}, unseen)
    ensures config.authType == NoAuth ==> NothingBut(now, config.name, {}, unseen)
    ensures config.authType == Oauth2 ==>
              var tokens := {OauthAccessToken, OauthRefreshToken, OauthExpiresAt};
              var secret := Account(config.name, OauthClientSecret);
              && NothingBut(now, config.name,
                            {OauthClientSecret, OauthAccessToken, OauthRefreshToken, OauthExpiresAt}, unseen)
              && At(now, secret) == Wanted(before, secret, supplied)
              && forall f | f in tokens && (f in supplied || At(before, Account(config.name, f)) != "") ::
                   At(now, Account(config.name, f)) != ""
  {
    forall f: Field | !f.Unsupported? && !Kept(config.authType, f) && f !in unseen
      ensures At(now, Account(config.name, f)) == ""
    {
      assert Managed(config.name, Account(config.name, f));
    }
    if CredentialField(config.authType).Some? {
      var f := CredentialField(config.authType).value;
      assert Managed(config.name, Account(config.name, f)) && Kept(config.authType, f);
    }
  }

  /** The secret the entry's mode stands for is supplied or stored. */
  ghost predicate HasCredential(config: Config, before: Secrets, supplied: Credentials) {
    match config.authType
    case NoAuth => true
    case ApiKeyAuth => Wanted(before, Account(config.name, ApiKey), supplied) != ""
    case BearerAuth => Wanted(before, Account(config.name, BearerToken), supplied) != ""
    case BasicAuth => Wanted(before, Account(config.name, BasicPassword), supplied) != ""
    case CustomHeaderAuth => Wanted(before, Account(config.name, CustomHeader), supplied) != ""
    case Oauth2 => true
  }

  /** Without a fault, a save succeeds exactly when the fields are known and the mode has its credential. */
  lemma SavesWithoutFaults(before: Secrets, config: Config, supplied: Credentials, test: bool, unseen: set<Field>)
    requires forall f | f in supplied :: supplied[f] != ""
    ensures Saves(before, config, supplied, test, unseen, NO_FAULTS) <==>
              && (forall f | f in supplied :: !f.Unsupported?)
              && HasCredential(config, before, supplied)
  {
  }

  /** Contacting an OAuth server may have renewed its tokens. */
  ghost predicate Contacted(before: Secrets, now: Secrets, config: Config) {
    forall a: Account ::
      if config.authType.Oauth2? && a.server == config.name && a.field in TOKEN_FIELDS
      then At(before, a) != "" ==> At(now, a) != ""
      else At(now, a) == At(before, a)
  }

  /** Storing the credentials, contacting the server and deleting obsolete fields saves the credentials. */
  lemma SavedInSteps(before: Secrets, stored: Secrets, tested: Secrets, now: Secrets, config: Config,
                     supplied: Credentials, unseen: set<Field>)
    requires supplied.Keys <= SECRET_FIELDS && forall f | f in supplied :: supplied[f] != ""
    requires Overlaid(before, stored, config.name, supplied) && Contacted(stored, tested, config)
    requires CleanedUp(tested, now, config, unseen)
    requires forall f | CredentialField(config.authType) == Some(f) :: At(stored, Account(config.name, f)) != ""
    ensures SavedSecrets(before, now, config, supplied, unseen)
  {
  }

  lemma NothingRenewed(secrets: Secrets, config: Config)
    ensures Contacted(secrets, secrets, config)
  {
  }

  lemma OnlyThisServer(before: Secrets, stored: Secrets, tested: Secrets, config: Config)
    requires TouchesOnly(before, stored, config.name) && Contacted(stored, tested, config)
    ensures TouchesOnly(before, tested, config.name)
  {
  }

  lemma ObsoleteIsWanted(before: Secrets, stored: Secrets, tested: Secrets, config: Config, supplied: Credentials)
    requires Overlaid(before, stored, config.name, supplied) && Contacted(stored, tested, config)
    ensures forall f: Field :: Obsolete(tested, config, f) <==>
              f in SECRET_FIELDS && !Kept(config.authType, f) && Wanted(before, Account(config.name, f), supplied) != ""
  {
  }

  /** The fields of each mode, named. */
  function FieldsOf(a: AuthType): set<Field> {
    match a
    case NoAuth => {}
    case ApiKeyAuth => {ApiKey}
    case BearerAuth => {BearerToken}
    case BasicAuth => {BasicPassword}
    case CustomHeaderAuth => {CustomHeader}
    case Oauth2 => {OauthClientSecret, OauthAccessToken, OauthRefreshToken, OauthExpiresAt}
  }

  /**
   Which faults stop a save that would succeed without them: one at the registry or at dropping the client always, one
   at contacting the server when it is tested, one at writing a supplied field, one at looking for the credential of a
   mode that needs one, and one at deleting a field of another mode that is found.
   */
  lemma FaultsThatMatter(before: Secrets, config: Config, supplied: Credentials, test: bool, unseen: set<Field>,
                         faults: Faults)
    ensures Saves(before, config, supplied, test, unseen, faults) <==>
              && Saves(before, config, supplied, test, unseen, NO_FAULTS)
              && !faults.entry && !faults.drop && (test ==> !faults.contact)
              && (forall f | f in supplied :: f !in faults.writes)
              && (config.authType != NoAuth && config.authType != Oauth2 ==> !faults.look)
              && forall f | f in faults.deletes && f !in unseen && !f.Unsupported? && f !in FieldsOf(config.authType) ::
                   Wanted(before, Account(config.name, f), supplied) == ""
  {
    hide Kept, FieldsOf;
    forall f: Field
      ensures f in SECRET_FIELDS <==> !f.Unsupported?
      ensures f in FieldsOf(config.authType) <==> Kept(config.authType, f)
    {
      FieldsAreKept(config.authType, f);
    }
    if CredentialField(config.authType).Some? {
      var f := CredentialField(config.authType).value;
      assert CredentialField(config.authType) == Some(f);
    }
  }

  lemma FieldsAreKept(a: AuthType, f: Field)
    ensures f in SECRET_FIELDS <==> !f.Unsupported?
    ensures f in FieldsOf(a) <==> Kept(a, f)
  {
  }

  /** Of this server's managed fields only those of its mode are stored. */
  ghost predicate OnlyItsFields(now: Secrets, config: Config) {
    forall a: Account | Managed(config.name, a) && !Kept(config.authType, a.field) :: At(now, a) == ""
  }

  /** No field of another mode that holds or was given a secret escaped the search for such fields. */
  ghost predicate NoneUnseen(before: Secrets, config: Config, supplied: Credentials, unseen: set<Field>) {
    forall a: Account | Managed(config.name, a) && !Kept(config.authType, a.field) && a.field in unseen ::
      Wanted(before, a, supplied) == ""
  }

  /** After a save exactly the fields of the mode remain exactly when no field of another mode escaped. */
  lemma OnlyItsFieldsRemainExactlyWhen(before: Secrets, now: Secrets, config: Config, supplied: Credentials,
                                       unseen: set<Field>)
    requires SavedSecrets(before, now, config, supplied, unseen)
    ensures OnlyItsFields(now, config) <==> NoneUnseen(before, config, supplied, unseen)
  {
    hide Managed, Kept;
  }

  /** A stored field that does not belong to the entry's mode. */
  predicate Obsolete(secrets: Secrets, config: Config, f: Field) {
    f in SECRET_FIELDS && !Kept(config.authType, f) && At(secrets, Account(config.name, f)) != ""
  }

  /** Managed fields of other modes are gone if they could be read, everything else is as it was. */
  ghost predicate CleanedUp(before: Secrets, now: Secrets, config: Config, unseen: set<Field>) {
    forall a: Account :: At(now, a) ==
      if Managed(config.name, a) && !Kept(config.authType, a.field) && a.field !in unseen then "" else At(before, a)
  }

  /** The managed secrets of a server are gone, but for those that could not be read. */
  ghost predicate Emptied(before: Secrets, now: Secrets, server: string, unseen: set<Field>) {
    forall a: Account :: At(now, a) == if Managed(server, a) && a.field !in unseen then "" else At(before, a)
  }

  /** No stored secret that is found fails to be deleted. */
  predicate Deletable(secrets: Secrets, server: string, unseen: set<Field>, deletes: set<Field>) {
    forall f | f in SECRET_FIELDS && f in deletes && f !in unseen :: At(secrets, Account(server, f)) == ""
  }

  /** Every secret of the server is gone exactly when none escaped. */
  lemma EmptiedExactlyWhen(before: Secrets, now: Secrets, server: string, unseen: set<Field>)
    requires Emptied(before, now, server, unseen)
    ensures RestoredTo(before, now, server, map[]) <==> NoneMissed(before, server, unseen)
  {
    if RestoredTo(before, now, server, map[]) {
      forall f | f in unseen && f in SECRET_FIELDS
        ensures At(before, Account(server, f)) == ""
      {
        assert Managed(server, Account(server, f)) && Given(map[], f) == "";
      }
    }
  }

  lemma SnapshotIsManaged(before: Secrets, server: string, missed: set<Field>)
    ensures forall f | f in SnapshotOf(before, server, missed) ::
              f in SECRET_FIELDS && SnapshotOf(before, server, missed)[f] != ""
  {
  }

  /** The entry of a name, as the registry reports it. */
  function EntryOf(servers: Servers, name: string): Option<Config> {
    if name in servers then Some(servers[name]) else None
  }

  /** What happened to the registry between a snapshot of it and a rollback. */
  ghost predicate AtMostReplaced(before: Servers, now: Servers, name: string) {
    now == before || (name in now && now == before[name := now[name]])
  }

  /** The two stores. */
  datatype Stores = Stores(secrets: Secrets, servers: Servers)

  /** The validated entry is stored, no other entry changed, and the keyring holds what the entry's mode needs. */
  ghost predicate Persisted(checked: Option<Config>, before: Stores, now: Stores, supplied: Credentials,
                            unseen: set<Field>) {
    && checked.Some?
    && now.servers == before.servers[checked.value.name := checked.value]
    && SavedSecrets(before.secrets, now.secrets, checked.value, supplied, unseen)
  }

  /** Storing credentials, authorizing and then saving without credentials saves the supplied credentials. */
  lemma NestedSave(before: Secrets, stored: Secrets, authorized: Secrets, now: Secrets,
                   config: Config, supplied: Credentials, unseen: set<Field>)
    requires config.authType.Oauth2? && supplied.Keys <= SECRET_FIELDS && forall f | f in supplied :: supplied[f] != ""
    requires Overlaid(before, stored, config.name, supplied)
    requires Contacted(stored, authorized, config)
    requires SavedSecrets(authorized, now, config, Supplied(map[]), unseen)
    ensures SavedSecrets(before, now, config, supplied, unseen)
  {
    forall a: Account | Managed(config.name, a) && !(a.field in TOKEN_FIELDS)
      ensures At(now, a) == if Kept(config.authType, a.field) || a.field in unseen then Wanted(before, a, supplied)
                            else ""
    {
      assert a.field !in Supplied(map[]);
    }
  }

  lemma NothingSavedUnstored(before: Secrets, config: Config, supplied: Credentials, unseen: set<Field>, faults: Faults)
    ensures Saves(before, config, supplied, true, unseen, faults) ==>
              forall f | f in supplied :: f in SECRET_FIELDS && f !in faults.writes && supplied[f] != ""
  {
  }

  /** The nested save, without credentials, succeeds exactly when saving the stored credentials would. */
  lemma NestedSaves(before: Secrets, stored: Secrets, authorized: Secrets, config: Config, supplied: Credentials,
                    unseen: set<Field>, writes: set<Field>, faults: Faults)
    requires config.authType.Oauth2? && Overlaid(before, stored, config.name, supplied)
    requires Contacted(stored, authorized, config)
    requires forall f | f in supplied :: f in SECRET_FIELDS && f !in writes && supplied[f] != ""
    ensures Saves(authorized, config, Supplied(map[]), true, unseen, faults) <==>
            Saves(before, config, supplied, true, unseen, faults.(writes := writes))
  {
    ObsoleteIsWanted(before, stored, authorized, config, supplied);
  }

  class Service {
    const keyring: Keyring
    const registry: Registry

    constructor (keyring: Keyring, registry: Registry)
      ensures this.keyring == keyring && this.registry == registry
    {
      this.keyring := keyring;
      this.registry := registry;
    }

    ghost predicate Valid()
      reads this, keyring
    {
      NoEmptySecrets(keyring.secrets) && SoundValidator(registry.validate)
    }

    ghost function State(): Stores
      reads this, keyring, registry
    {
      Stores(keyring.secrets, registry.servers)
    }

    /** `doctor_server` or `authorize_oauth`: contacting an OAuth server may store new tokens, whatever the outcome. */
    method Contact(config: Config, fails: bool) returns (ok: bool)
      requires NoEmptySecrets(keyring.secrets)
      modifies keyring
      ensures NoEmptySecrets(keyring.secrets) && ok == !fails
      ensures Contacted(old(keyring.secrets), keyring.secrets, config)
    {
      ok := !fails;
      if config.authType.Oauth2? {
        var access: string, refresh: string, expires: string := *, *, *;
        RenewToken(config.name, OauthAccessToken, access);
        RenewToken(config.name, OauthRefreshToken, refresh);
        RenewToken(config.name, OauthExpiresAt, expires);
      }
    }

    /** Store a token the server sent, if it sent one and the keyring works. */
    method RenewToken(server: string, f: Field, token: string)
      requires NoEmptySecrets(keyring.secrets)
      modifies keyring
      ensures NoEmptySecrets(keyring.secrets)
      ensures forall a: Account | a != Account(server, f) :: At(keyring.secrets, a) == At(old(keyring.secrets), a)
      ensures At(keyring.secrets, Account(server, f)) in {token, At(old(keyring.secrets), Account(server, f))}
      ensures At(old(keyring.secrets), Account(server, f)) != "" ==> At(keyring.secrets, Account(server, f)) != ""
    {
      var fault: bool := *;
      if token != "" { var _ := keyring.Set(server, f, token, fault); }
    }

    /** Store the supplied credentials one by one; stop at an unsupported field or a failing write. */
    method SetAll(server: string, supplied: Credentials, writes: set<Field>) returns (ok: bool)
      requires NoEmptySecrets(keyring.secrets)
      modifies keyring
      ensures NoEmptySecrets(keyring.secrets) && TouchesOnly(old(keyring.secrets), keyring.secrets, server)
      ensures ok ==> Overlaid(old(keyring.secrets), keyring.secrets, server, supplied)
      ensures ok <==> forall f | f in supplied :: f in SECRET_FIELDS && f !in writes && supplied[f] != ""
    {
      ghost var before := keyring.secrets;
      var pending := supplied.Keys;
      while pending != {}
        invariant pending <= supplied.Keys && supplied.Keys - pending <= SECRET_FIELDS
        invariant NoEmptySecrets(keyring.secrets)
        invariant forall f | f in supplied && f !in pending :: supplied[f] != "" && f !in writes
        invariant forall a: Account :: At(keyring.secrets, a) ==
                    if a.server == server && a.field in supplied && a.field !in pending then supplied[a.field]
                    else At(before, a)
        decreases pending
      {
        var f :| f in pending;
        if f !in SECRET_FIELDS { return false; }
        var stored := keyring.Set(server, f, supplied[f], f in writes);
        if !stored { return false; }
        pending := pending - {f};
      }
      return true;
    }

    /** `_cleanup_obsolete_auth_fields`. */
    method CleanupObsoleteFields(config: Config, unseen: set<Field>, deletes: set<Field>) returns (ok: bool)
      requires NoEmptySecrets(keyring.secrets)
      modifies keyring
      ensures NoEmptySecrets(keyring.secrets) && TouchesOnly(old(keyring.secrets), keyring.secrets, config.name)
      ensures ok ==> CleanedUp(old(keyring.secrets), keyring.secrets, config, unseen)
      ensures ok <==> forall f | f in deletes && f !in unseen :: !Obsolete(old(keyring.secrets), config, f)
    {
      ghost var before := keyring.secrets;
      var pending := SECRET_FIELDS;
      while pending != {}
        invariant pending <= SECRET_FIELDS && NoEmptySecrets(keyring.secrets)
        invariant forall a: Account :: At(keyring.secrets, a) ==
                    if Managed(config.name, a) && a.field !in pending && !Kept(config.authType, a.field) && a.field !in unseen
                    then "" else At(before, a)
        invariant forall f | f in deletes && f !in unseen && f !in pending :: !Obsolete(before, config, f)
        decreases pending
      {
        hide Managed, Kept;
        var f :| f in pending;
        OneFieldLess(config.name, pending, f);
        pending := pending - {f};
        var present := keyring.Get(config.name, f, f !in unseen);
        if !Kept(config.authType, f) && present != "" {
          var deleted := keyring.Delete(config.name, f, f in deletes);
          if !deleted { return false; }
        }
      }
      return true;
    }

    /** The steps inside the `try` of save_server. */
    method SaveSteps(config: Config, supplied: Credentials, test: bool, unseen: set<Field>,
                     faults: Faults) returns (ok: bool)
      requires Valid() && registry.validate(config) == Some(config)
      modifies keyring, registry`servers
      ensures Valid() && TouchesOnly(old(keyring.secrets), keyring.secrets, config.name)
      ensures AtMostReplaced(old(registry.servers), registry.servers, config.name)
      ensures ok <==> Saves(old(keyring.secrets), config, supplied, test, unseen, faults)
      ensures ok ==> registry.servers == old(registry.servers)[config.name := config]
      ensures ok ==> SavedSecrets(old(keyring.secrets), keyring.secrets, config, supplied, unseen)
    {
      hide Kept, Managed, Contacted, SavedSecrets, CleanedUp, Obsolete;
      var stored := SetAll(config.name, supplied, faults.writes);
      if !stored { return false; }
      ghost var afterStoring := keyring.secrets;
      NothingRenewed(afterStoring, config);
      var required := CredentialField(config.authType);
      if required.Some? {
        var value := keyring.Get(config.name, required.value, !faults.look);
        if value == "" { return false; }
      }
      if test {
        var healthy := Contact(config, faults.contact);
        OnlyThisServer(old(keyring.secrets), afterStoring, keyring.secrets, config);
        if !healthy { return false; }
      }
      ghost var afterTest := keyring.secrets;
      ObsoleteIsWanted(old(keyring.secrets), afterStoring, afterTest, config, supplied);
      var put := registry.Put(config, faults.entry);
      if !put { return false; }
      var cleaned := CleanupObsoleteFields(config, unseen, faults.deletes);
      if !cleaned { return false; }
      SavedInSteps(old(keyring.secrets), afterStoring, afterTest, keyring.secrets, config, supplied, unseen);
      return !faults.drop;
    }

    /** Put the registry entry back, ignoring a failure to do so. */
    method RestoreEntry(name: string, previous: Option<Config>, ghost before: Servers)
      requires name != "triforce" && SoundValidator(registry.validate)
      requires Restorable(registry.validate, before, name) ==> AtMostReplaced(before, registry.servers, name)
      requires previous == EntryOf(before, name)
      modifies registry`servers
      ensures Restorable(registry.validate, before, name) ==> registry.servers == before
      ensures name in before && old(registry.servers) != before && AtMostReplaced(before, old(registry.servers), name) ==>
        (registry.servers == before <==> Restorable(registry.validate, before, name))
    {
      var current := registry.Get(name);
      if previous.None? && current.Some? {
        var _ := registry.Remove(name, false);
      } else if previous.Some? && current != previous {
        var _ := registry.Put(previous.value, false);
      }
    }

    /**
     `save_server`: all or nothing over both stores, but for secrets the snapshot missed. None of its steps before the
     transaction changes anything.
     */
    method SaveServer(candidate: Config, secrets: Credentials, test: bool, unread: Unread,
                      faults: Faults) returns (ok: bool)
      requires Valid()
      modifies keyring, registry`servers
      ensures Valid()
      ensures Canonical(registry.validate, old(registry.servers)) ==> Canonical(registry.validate, registry.servers)
      ensures Reserved(candidate.name) || registry.validate(candidate).None? ==> !ok && State() == old(State())
      ensures !ok && !Reserved(candidate.name) && registry.validate(candidate).Some? ==>
                && LosesExactly(old(keyring.secrets), keyring.secrets, candidate.name, unread.snapshot)
                && (keyring.secrets == old(keyring.secrets)
                    <==> NoneMissed(old(keyring.secrets), candidate.name, unread.snapshot))
      ensures !ok && Restorable(registry.validate, old(registry.servers), candidate.name) ==>
        registry.servers == old(registry.servers)
      ensures var config := registry.validate(candidate);
              ok <==> !Reserved(candidate.name) && config.Some?
                      && Saves(old(keyring.secrets), config.value, Supplied(secrets), test, unread.status, faults)
      ensures ok ==> Persisted(registry.validate(candidate), old(State()), State(), Supplied(secrets), unread.status)
      ensures ok && candidate.authType == ApiKeyAuth ==>
                && Holds(old(keyring.secrets), keyring.secrets, candidate.name, ApiKey, Supplied(secrets))
                && NothingBut(keyring.secrets, candidate.name, {ApiKey}, unread.status)
      ensures ok && candidate.authType == BearerAuth ==>
                && Holds(old(keyring.secrets), keyring.secrets, candidate.name, BearerToken, Supplied(secrets))
                && NothingBut(keyring.secrets, candidate.name, {BearerToken}, unread.status)
      ensures ok && candidate.authType == BasicAuth ==>
                && Holds(old(keyring.secrets), keyring.secrets, candidate.name, BasicPassword, Supplied(secrets))
                && NothingBut(keyring.secrets, candidate.name, {BasicPassword}, unread.status)
      ensures ok && candidate.authType == CustomHeaderAuth ==>
                && Holds(old(keyring.secrets), keyring.secrets, candidate.name, CustomHeader, Supplied(secrets))
                && NothingBut(keyring.secrets, candidate.name, {CustomHeader}, unread.status)
      ensures ok && candidate.authType == NoAuth ==> NothingBut(keyring.secrets, candidate.name, {}, unread.status)
      ensures ok && candidate.authType == Oauth2 ==>
                NothingBut(keyring.secrets, candidate.name,
                           {OauthClientSecret, OauthAccessToken, OauthRefreshToken, OauthExpiresAt}, unread.status)
      ensures faults == NO_FAULTS && !Reserved(candidate.name) && registry.validate(candidate).Some? ==>
                (ok <==> && (forall f | f in Supplied(secrets) :: !f.Unsupported?)
                         && HasCredential(candidate, old(keyring.secrets), Supplied(secrets)))
    {
      hide Lower, Reserved, LosesExactly, NoneMissed, SavedSecrets, Holds, NothingBut, Saves, TouchesOnly, SnapshotOf;
      if Reserved(candidate.name) { return false; }
      var checked := registry.validate(candidate);
      if checked.None? { return false; }
      var config := checked.value;
      SavesWithoutFaults(keyring.secrets, config, Supplied(secrets), test, unread.status);
      var previousConfig := registry.Get(config.name);
      var previousSecrets := keyring.Snapshot(config.name, unread.snapshot);
      ok := SaveSteps(config, Supplied(secrets), test, unread.status, faults);
      if !ok {
        RollBack(config.name, previousSecrets, previousConfig, unread.snapshot, old(keyring.secrets),
                 old(registry.servers));
      } else {
        SavedByMode(old(keyring.secrets), keyring.secrets, config, Supplied(secrets), unread.status);
      }
    }

    /** The exception handler shared by the saving transactions: the secrets first, then the entry. */
    method RollBack(name: string, secrets: Credentials, entry: Option<Config>, ghost missed: set<Field>,
                    ghost secretsBefore: Secrets, ghost serversBefore: Servers)
      requires Valid() && NoEmptySecrets(secretsBefore) && name != "triforce"
      requires TouchesOnly(secretsBefore, keyring.secrets, name) && secrets == SnapshotOf(secretsBefore, name, missed)
      requires Restorable(registry.validate, serversBefore, name) ==>
        AtMostReplaced(serversBefore, registry.servers, name)
      requires entry == EntryOf(serversBefore, name)
      modifies keyring, registry`servers
      ensures Valid() && LosesExactly(secretsBefore, keyring.secrets, name, missed)
      ensures keyring.secrets == secretsBefore <==> NoneMissed(secretsBefore, name, missed)
      ensures Restorable(registry.validate, serversBefore, name) ==> registry.servers == serversBefore
    {
      ghost var changed := keyring.secrets;
      keyring.Restore(name, secrets);
      RestoreIsExactExactlyWhen(secretsBefore, changed, keyring.secrets, name, missed);
      RestoreEntry(name, entry, serversBefore);
    }

    /** The steps inside the `try` of authorize_and_save_server. */
    method AuthorizeSteps(config: Config, supplied: Credentials, nested: Unread, faults: Faults,
                          nestedFaults: Faults) returns (ok: bool)
      requires Valid() && registry.validate(config) == Some(config) && config.authType.Oauth2?
      modifies keyring, registry`servers
      ensures Valid() && TouchesOnly(old(keyring.secrets), keyring.secrets, config.name)
      ensures Reserved(config.name) ==> !ok
      ensures !ok && Restorable(registry.validate, old(registry.servers), config.name) ==>
        registry.servers == old(registry.servers)
      ensures ok ==> Persisted(Some(config), old(State()), State(), supplied, nested.status)
      ensures ok <==> !Reserved(config.name) && !faults.contact
                      && Saves(old(keyring.secrets), config, supplied, true, nested.status,
                               nestedFaults.(writes := faults.writes))
    {
      hide Lower, Reserved, Saves, SavedSecrets, Contacted, Kept, Holds, NothingBut;
      NothingSavedUnstored(keyring.secrets, config, supplied, nested.status, nestedFaults.(writes := faults.writes));
      ok := SetAll(config.name, supplied, faults.writes);
      if !ok { return; }
      ghost var stored := keyring.secrets;
      ok := Contact(config, faults.contact);
      if !ok { return; }
      ghost var authorized := keyring.secrets;
      NestedSaves(old(keyring.secrets), stored, authorized, config, supplied, nested.status, faults.writes, nestedFaults);
      ok := SaveServer(config, map[], true, nested, nestedFaults);
      if ok {
        NestedSave(old(keyring.secrets), stored, authorized, keyring.secrets, config, supplied, nested.status);
      }
    }

    /**
     `authorize_and_save_server`: authorization, credentials, test and persistence as one unit around a nested save,
     whose own reads may fail too.
     */
    method AuthorizeAndSave(candidate: Config, secrets: Credentials, unread: Unread, nested: Unread, faults: Faults,
                            nestedFaults: Faults) returns (ok: bool)
      requires Valid()
      modifies keyring, registry`servers
      ensures Valid()
      ensures Canonical(registry.validate, old(registry.servers)) ==> Canonical(registry.validate, registry.servers)
      ensures registry.validate(candidate).None? ==> !ok && State() == old(State())
      ensures Reserved(candidate.name) ==> !ok
      ensures !ok && registry.validate(candidate).Some? && !Reserved(candidate.name) ==>
                && LosesExactly(old(keyring.secrets), keyring.secrets, candidate.name, unread.snapshot)
                && (keyring.secrets == old(keyring.secrets)
                    <==> NoneMissed(old(keyring.secrets), candidate.name, unread.snapshot))
      ensures !ok && Restorable(registry.validate, old(registry.servers), candidate.name) ==>
        registry.servers == old(registry.servers)
      ensures ok ==> Persisted(registry.validate(candidate), old(State()), State(), Supplied(secrets),
                               if candidate.authType.Oauth2? then nested.status else unread.status)
      ensures registry.validate(candidate).Some? ==>
                var config, before, supplied := registry.validate(candidate).value, old(keyring.secrets), Supplied(secrets);
                ok <==> && !Reserved(candidate.name)
                        && if candidate.authType == Oauth2
                           then !faults.contact && Saves(before, config, supplied, true, nested.status,
                                                         nestedFaults.(writes := faults.writes))
                           else Saves(before, config, supplied, true, unread.status, faults)
    {
      hide Lower, Reserved, LosesExactly, NoneMissed;
      var checked := registry.validate(candidate);
      if checked.None? { return false; }
      var config := checked.value;
      if !config.authType.Oauth2? {
        ok := SaveServer(config, secrets, true, unread, faults);
        return;
      }
      var previousConfig := registry.Get(config.name);
      var previousSecrets := keyring.Snapshot(config.name, unread.snapshot);
      ok := AuthorizeSteps(config, Supplied(secrets), nested, faults, nestedFaults);
      if !ok {
        RollBack(config.name, previousSecrets, previousConfig, unread.snapshot, old(keyring.secrets),
                 old(registry.servers));
      }
    }

    /**
     `test_candidate`: whatever the test says, the registry was never written and the keyring is as before, exactly
     unless the snapshot missed a secret.
     */
    method TestCandidate(candidate: Config, secrets: Credentials, missed: set<Field>,
                         faults: Faults) returns (ok: bool)
      requires Valid()
      modifies keyring
      ensures Valid()
      ensures ok <==> registry.validate(candidate).Some? && !faults.contact && secrets.Keys <= SECRET_FIELDS
                      && forall f | f in secrets && secrets[f] != "" :: f !in faults.writes
      ensures registry.validate(candidate).None? ==> keyring.secrets == old(keyring.secrets)
      ensures registry.validate(candidate).Some? ==>
                && LosesExactly(old(keyring.secrets), keyring.secrets, candidate.name, missed)
                && (keyring.secrets == old(keyring.secrets) <==> NoneMissed(old(keyring.secrets), candidate.name, missed))
    {
      hide LosesExactly, NoneMissed;
      var checked := registry.validate(candidate);
      if checked.None? { return false; }
      var config := checked.value;
      var previous := keyring.Snapshot(config.name, missed);
      ok := secrets.Keys <= SECRET_FIELDS;
      if ok { ok := SetAll(config.name, Supplied(secrets), faults.writes); }
      if ok { ok := Contact(config, faults.contact); }
      ghost var changed := keyring.secrets;
      keyring.Restore(config.name, previous);
      RestoreIsExactExactlyWhen(old(keyring.secrets), changed, keyring.secrets, config.name, missed);
    }

    /**
     `remove_server`. A removal that fails after the entry is gone puts the entry back first, so an entry that can no
     longer be written leaves the secrets as the failure left them.
     */
    method RemoveServer(name: string, unread: Unread, faults: Faults) returns (r: Removal)
      requires Valid()
      modifies keyring, registry`servers
      ensures Valid()
      ensures Canonical(registry.validate, old(registry.servers)) ==> Canonical(registry.validate, registry.servers)
      ensures r == RemovalFailed || r == NotThere ==> State() == old(State())
      ensures Reserved(name) ==> r == RemovalFailed
      ensures r == if Reserved(name) then RemovalFailed
                   else if name !in old(registry.servers) then NotThere
                   else if faults.entry then RemovalFailed
                   else if !faults.drop && Deletable(old(keyring.secrets), name, unread.status, faults.deletes)
                   then Removed
                   else RolledBack
      ensures r == RolledBack && registry.validate(old(registry.servers)[name]).Some? ==>
                && LosesExactly(old(keyring.secrets), keyring.secrets, name, unread.snapshot)
                && (keyring.secrets == old(keyring.secrets) <==> NoneMissed(old(keyring.secrets), name, unread.snapshot))
      ensures r == RolledBack && registry.validate(old(registry.servers)[name]).None? ==>
                registry.servers == old(registry.servers) - {name}
      ensures r == RolledBack && Restorable(registry.validate, old(registry.servers), name) ==>
        registry.servers == old(registry.servers)
      ensures r == Removed ==>
                && registry.servers == old(registry.servers) - {name}
                && Emptied(old(keyring.secrets), keyring.secrets, name, unread.status)
                && (RestoredTo(old(keyring.secrets), keyring.secrets, name, map[])
                    <==> NoneMissed(old(keyring.secrets), name, unread.status))
    {
      hide Lower, Reserved, Managed, LosesExactly, NoneMissed, RestoredTo, Emptied, SnapshotOf;
      if Reserved(name) { return RemovalFailed; }
      OthersAreNotBuiltIn(name);
      var previousConfig := registry.Get(name);
      if previousConfig.None? { return NotThere; }
      var previousSecrets := keyring.Snapshot(name, unread.snapshot);
      r := registry.Remove(name, faults.entry);
      if r != Removed { return; }
      var deleted := DeleteAll(name, unread.status, faults.deletes);
      if deleted && !faults.drop {
        EmptiedExactlyWhen(old(keyring.secrets), keyring.secrets, name, unread.status);
        return;
      }
      ghost var changed := keyring.secrets;
      var put := registry.Put(previousConfig.value, false);
      if put {
        SnapshotIsManaged(old(keyring.secrets), name, unread.snapshot);
        keyring.Restore(name, previousSecrets);
        RestoreIsExactExactlyWhen(old(keyring.secrets), changed, keyring.secrets, name, unread.snapshot);
      }
      return RolledBack;
    }

    /** Delete every managed secret of a server that can be read, stopping at the first failure. */
    method DeleteAll(name: string, unseen: set<Field>, deletes: set<Field>) returns (ok: bool)
      requires NoEmptySecrets(keyring.secrets)
      modifies keyring
      ensures NoEmptySecrets(keyring.secrets) && TouchesOnly(old(keyring.secrets), keyring.secrets, name)
      ensures ok ==> Emptied(old(keyring.secrets), keyring.secrets, name, unseen)
      ensures ok <==> Deletable(old(keyring.secrets), name, unseen, deletes)
    {
      ghost var before := keyring.secrets;
      var pending := SECRET_FIELDS;
      while pending != {}
        invariant pending <= SECRET_FIELDS && NoEmptySecrets(keyring.secrets)
        invariant forall a: Account :: At(keyring.secrets, a) ==
                    if Managed(name, a) && a.field !in pending && a.field !in unseen then "" else At(before, a)
        invariant forall f | f in SECRET_FIELDS && f in deletes && f !in unseen && f !in pending ::
                    At(before, Account(name, f)) == ""
        decreases pending
      {
        hide Managed;
        var f :| f in pending;
        OneFieldLess(name, pending, f);
        pending := pending - {f};
        var present := keyring.Get(name, f, f !in unseen);
        if present != "" {
          var deleted := keyring.Delete(name, f, f in deletes);
          if !deleted { return false; }
        }
      }
      return true;
    }
  }

  /** Credentials that count as supplied: those that are not empty. */
  function Supplied(secrets: Credentials): Credentials {
    map f | f in secrets && secrets[f] != "" :: secrets[f]
  }

  /**
   A concrete loss: the keyring fails to read the stored key while the snapshot is taken, the save is refused for a
   misspelt field, and its rollback deletes the key.
   */
  method RefusedSaveLosesAnUnreadKey() returns (ok: bool, keyring: Keyring)
    ensures !ok && keyring.secrets == map[]
  {
    hide Lower, Reserved, Persisted, Holds, NothingBut, SavedSecrets, Restorable, Canonical;
    var key := Account("srv", ApiKey);
    keyring := new Keyring(map[key := "k"]);
    var registry := new Registry((c: Config) => if c.name == "srv" then Some(c) else None, map[]);
    var service := new Service(keyring, registry);
    NotReserved();
    var misspelt: Credentials := map[Unsupported("apikey") := "new"];
    assert Unsupported("apikey") in Supplied(misspelt).Keys;
    ok := service.SaveServer(Config("srv", ApiKeyAuth, []), misspelt, false, Unread({ApiKey}, {}), NO_FAULTS);
    assert forall a: Account :: At(keyring.secrets, a) == At(map[], a);
    SameSecrets(keyring.secrets, map[]);
  }

  /** An API-key server is saved with an API key, which is all the keyring holds then, and with no other credential. */
  method SavedWithItsOwnCredential(f: Field, value: string) returns (ok: bool, keyring: Keyring)
    requires !f.Unsupported? && value != ""
    ensures ok <==> f == ApiKey
    ensures keyring.secrets == if ok then map[Account("srv", ApiKey) := value] else map[]
  {
    hide Lower, Reserved, SavedSecrets, Restorable, Canonical, Saves, Holds, NothingBut, NoneMissed;
    keyring := new Keyring(map[]);
    var registry := new Registry((c: Config) => if c.name == "srv" then Some(c) else None, map[]);
    var service := new Service(keyring, registry);
    NotReserved();
    var config, given: Credentials := Config("srv", ApiKeyAuth, []), map[f := value];
    assert Supplied(given) == given;
    ok := service.SaveServer(config, given, false, Unread({}, {}), NO_FAULTS);
    if ok {
      KeyAlone(keyring.secrets, config, value);
    } else {
      SameSecrets(keyring.secrets, map[]);
    }
  }

  lemma KeyAlone(now: Secrets, config: Config, value: string)
    requires config.authType == ApiKeyAuth && NoEmptySecrets(now) && value != ""
    requires SavedSecrets(map[], now, config, map[ApiKey := value], {})
    ensures now == map[Account(config.name, ApiKey) := value]
  {
    SameSecrets(now, map[Account(config.name, ApiKey) := value]);
  }

  lemma NotReserved()
    ensures !Reserved("srv")
  {
    assert |Lower("srv")| == 3;
  }
}
