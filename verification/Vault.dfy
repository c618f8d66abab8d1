/**
 The OAuth token store as a transition system: callbacks, token reads with
 refresh, and deletes from many requests interleave at every call to the
 provider and to the database. Rows hold ciphertexts under the data key of
 their tenant, and data keys are stored sealed under the root key.
 */
module Vault {
  import opened Prelude
  import opened Crypto

  const GOOGLE := "google"

  // Tokens are refreshed when they expire within 30 seconds.
  const MARGIN := 30_000_000_000

  datatype TokenKey = TokenKey(tenant: Id, provider: string, user: string)

  datatype ConfigKey = ConfigKey(tenant: Id, provider: string)

  // What a provider issues. An absent refresh token is the empty string, a zero expiry is None.
  datatype Token = Token(access: Bytes, refresh: Bytes, expiry: Option<Time>)

  // A row of oauth_tokens; a NULL refresh token reads back as no bytes.
  datatype Row = Row(access: Bytes, refresh: Bytes, expiresAt: Option<Time>)

  // A row of oauth_provider_configs.
  datatype ProviderConfig = ProviderConfig(clientId: string, secret: Bytes)

  datatype Issue = Issue(key: TokenKey, token: Token)

  // What a successful GetToken returns.
  datatype Answer = Answer(key: TokenKey, access: Bytes, expiresAt: Option<Time>)

  // A request between two of its calls.
  datatype Op =
    | Exchanged(tenant: Id, provider: string, token: Token)
    | Identified(key: TokenKey, token: Token)
    // `plain` is the plaintext last written to the row that was read.
    | Fetched(key: TokenKey, row: Row, plain: Token)
    | Refreshed(key: TokenKey, row: Row, plain: Token, token: Token)

  datatype Env = Env(aead: Aead, root: Bytes)

  datatype State = State(
    clock: Time,
    tenants: map<Id, Bytes>,
    configs: map<ConfigKey, ProviderConfig>,
    rows: map<TokenKey, Row>,
    ops: map<Id, Op>,
    // The provider's ledger, oldest issue first, and the plaintexts last written to each row and config.
    issued: seq<Issue>,
    view: map<TokenKey, Token>,
    secrets: map<ConfigKey, Bytes>,
    answers: seq<Answer>)

  // ---------- Reading ----------

  // tenantSvc.DataKey
  function DataKey(env: Env, tenants: map<Id, Bytes>, tenant: Id): Result<Bytes, string> {
    if tenant !in tenants then Err("unknown tenant") else Decrypt(env.aead, env.root, tenants[tenant])
  }

  // buildProvider: the client id and secret the provider is constructed with.
  function BuildProvider(env: Env, tenants: map<Id, Bytes>, configs: map<ConfigKey, ProviderConfig>,
                         tenant: Id, provider: string): Result<(string, Bytes), string>
  {
    if ConfigKey(tenant, provider) !in configs then Err("provider config not found")
    else
      var cfg := configs[ConfigKey(tenant, provider)];
      match DataKey(env, tenants, tenant)
      case Err(_) => Err("encryption error")
      case Ok(dataKey) =>
        match Decrypt(env.aead, dataKey, cfg.secret)
        case Err(_) => Err("failed to decrypt client secret")
        case Ok(secret) => if provider == GOOGLE then Ok((cfg.clientId, secret)) else Err("unsupported provider")
  }

  // What a row says to whoever holds the data key.
  function Meaning(aead: Aead, dataKey: Bytes, row: Row): Option<Token> {
    match (Decrypt(aead, dataKey, row.access),
           if |row.refresh| == 0 then Ok([]) else Decrypt(aead, dataKey, row.refresh))
    case (Ok(access), Ok(refresh)) => Some(Token(access, refresh, row.expiresAt))
    case _ => None
  }

  // The token expires within the margin.
  predicate Expiring(clock: Time, row: Row) {
    row.expiresAt.Some? && row.expiresAt.value - clock < MARGIN
  }

  // ---------- Writing ----------

  // The row a callback stores.
  function CallbackRow(aead: Aead, dataKey: Bytes, token: Token, n1: Bytes, n2: Bytes): Row {
    Row(Frame(aead, dataKey, n1, token.access),
        if token.refresh != [] then Frame(aead, dataKey, n2, token.refresh) else [],
        token.expiry)
  }

  // The row a refresh stores: the refresh token read before is kept if the provider sent none.
  function RefreshRow(aead: Aead, dataKey: Bytes, row: Row, token: Token, n1: Bytes, n2: Bytes): Row {
    Row(Frame(aead, dataKey, n1, token.access),
        if token.refresh != [] then Frame(aead, dataKey, n2, token.refresh) else row.refresh,
        token.expiry)
  }

  // The plaintext of a refreshed row.
  function Merged(kept: Token, token: Token): Token {
    Token(token.access, if token.refresh != [] then token.refresh else kept.refresh, token.expiry)
  }

  // ---------- Steps ----------

  datatype Step =
    | Tick(to: Time)
    | CreateTenant(tenant: Id, dataKey: Bytes, n1: Bytes)
    | SetConfig(config: ConfigKey, clientId: string, secret: Bytes, n1: Bytes)
    // Callback: exchange the code, ask who the user is, store.
    | Exchange(op: Id, key: TokenKey, token: Token)
    | Identify(op: Id, user: string)
    | StoreCallback(op: Id, n1: Bytes, n2: Bytes)
    // GetToken: answer from the row, or read it, refresh at the provider, store and answer.
    | ReadFresh(key: TokenKey)
    | ReadExpiring(op: Id, key: TokenKey)
    | Refresh(op: Id, owner: TokenKey, token: Token)
    | StoreRefresh(op: Id, n1: Bytes, n2: Bytes)
    // Any error, timeout or crash.
    | Abandon(op: Id)
    | Delete(key: TokenKey)

  // Providers issue a token to one user of one tenant only.
  ghost predicate MayIssue(issued: seq<Issue>, i: Issue) {
    forall j | j in issued && j.key != i.key ::
      j.token.access != i.token.access && (i.token.refresh != [] ==> j.token.refresh != i.token.refresh)
  }

  predicate IsNonce(n: Bytes) {
    |n| == NONCE_SIZE
  }

  ghost predicate Enabled(env: Env, s: State, a: Step) {
    match a
    case Tick(to) => s.clock <= to
    case CreateTenant(tenant, dataKey, n1) => tenant !in s.tenants && |dataKey| == KEY_SIZE && IsNonce(n1)
    case SetConfig(key, _, _, n1) => DataKey(env, s.tenants, key.tenant).Ok? && IsNonce(n1)
    case Exchange(op, key, token) =>
      && op !in s.ops
      && BuildProvider(env, s.tenants, s.configs, key.tenant, key.provider).Ok?
      && MayIssue(s.issued, Issue(key, token))
    case Identify(op, user) =>
      && op in s.ops && s.ops[op].Exchanged?
      && exists i | i in s.issued ::
           i.key == TokenKey(s.ops[op].tenant, s.ops[op].provider, user) && i.token.access == s.ops[op].token.access
    case StoreCallback(op, n1, n2) =>
      && op in s.ops && s.ops[op].Identified? && DataKey(env, s.tenants, s.ops[op].key.tenant).Ok?
      && IsNonce(n1) && IsNonce(n2)
    case ReadFresh(key) =>
      && key in s.rows && !Expiring(s.clock, s.rows[key])
      && DataKey(env, s.tenants, key.tenant).Ok?
      && Decrypt(env.aead, DataKey(env, s.tenants, key.tenant).value, s.rows[key].access).Ok?
    case ReadExpiring(op, key) =>
      op !in s.ops && key in s.rows && Expiring(s.clock, s.rows[key]) && DataKey(env, s.tenants, key.tenant).Ok?
    case Refresh(op, owner, token) =>
      && op in s.ops && s.ops[op].Fetched?
      && (var key, row := s.ops[op].key, s.ops[op].row;
          && |row.refresh| != 0
          && DataKey(env, s.tenants, key.tenant).Ok?
          && (var refresh := Decrypt(env.aead, DataKey(env, s.tenants, key.tenant).value, row.refresh);
              && refresh.Ok?
              && BuildProvider(env, s.tenants, s.configs, key.tenant, key.provider).Ok?
              // The provider finds the user by the refresh token it is shown.
              && exists i | i in s.issued :: i.key == owner && i.token.refresh == refresh.value)
          && MayIssue(s.issued, Issue(owner, token)))
    case StoreRefresh(op, n1, n2) =>
      && op in s.ops && s.ops[op].Refreshed? && DataKey(env, s.tenants, s.ops[op].key.tenant).Ok?
      && IsNonce(n1) && IsNonce(n2)
    case Abandon(op) => op in s.ops
    case Delete(_) => true
  }

  // The plaintext last written under a key; in reachable states every row has one.
  function LastWritten(s: State, key: TokenKey): Token {
    if key in s.view then s.view[key] else Token([], [], None)
  }

  // A request stores its row, overwriting the one of the same key, and is finished.
  function Upsert(s: State, op: Id, key: TokenKey, row: Row, plain: Token): State {
    s.(rows := s.rows[key := row], view := s.view[key := plain], ops := s.ops - {op})
  }

  ghost function Apply(env: Env, s: State, a: Step): State
    requires Enabled(env, s, a)
  {
    match a
    case Tick(to) => s.(clock := to)
    case CreateTenant(tenant, dataKey, n1) =>
      s.(tenants := s.tenants[tenant := Frame(env.aead, env.root, n1, dataKey)])
    case SetConfig(key, clientId, secret, n1) =>
      var dataKey := DataKey(env, s.tenants, key.tenant).value;
      s.(configs := s.configs[key := ProviderConfig(clientId, Frame(env.aead, dataKey, n1, secret))],
         secrets := s.secrets[key := secret])
    case Exchange(op, key, token) =>
      s.(issued := s.issued + [Issue(key, token)], ops := s.ops[op := Exchanged(key.tenant, key.provider, token)])
    case Identify(op, user) =>
      var o := s.ops[op];
      s.(ops := s.ops[op := Identified(TokenKey(o.tenant, o.provider, user), o.token)])
    case StoreCallback(op, n1, n2) =>
      var o := s.ops[op];
      var dataKey := DataKey(env, s.tenants, o.key.tenant).value;
      Upsert(s, op, o.key, CallbackRow(env.aead, dataKey, o.token, n1, n2), o.token)
    case ReadFresh(key) =>
      s.(answers := s.answers + [AnswerOf(env, s, key, s.rows[key])])
    case ReadExpiring(op, key) => s.(ops := s.ops[op := Fetched(key, s.rows[key], LastWritten(s, key))])
    case Refresh(op, owner, token) =>
      var o := s.ops[op];
      s.(issued := s.issued + [Issue(owner, token)], ops := s.ops[op := Refreshed(o.key, o.row, o.plain, token)])
    case StoreRefresh(op, n1, n2) =>
      var o := s.ops[op];
      var dataKey := DataKey(env, s.tenants, o.key.tenant).value;
      var row := RefreshRow(env.aead, dataKey, o.row, o.token, n1, n2);
      var t := Upsert(s, op, o.key, row, Merged(o.plain, o.token));
      t.(answers := t.answers + [AnswerOf(env, s, o.key, row)])
    case Abandon(op) => s.(ops := s.ops - {op})
    case Delete(key) => s.(rows := s.rows - {key}, view := s.view - {key})
  }

  // The response: the access token decrypted from the row, with the row's expiry.
  function AnswerOf(env: Env, s: State, key: TokenKey, row: Row): Answer {
    match DataKey(env, s.tenants, key.tenant)
    case Err(_) => Answer(key, [], None)
    case Ok(dataKey) =>
      match Decrypt(env.aead, dataKey, row.access)
      case Err(_) => Answer(key, [], None)
      case Ok(access) => Answer(key, access, row.expiresAt)
  }

  ghost predicate Init(s: State) {
    && s.tenants == map[] && s.configs == map[] && s.rows == map[] && s.ops == map[]
    && s.issued == [] && s.view == map[] && s.secrets == map[] && s.answers == []
  }
}
