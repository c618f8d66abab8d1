/**
 The OAuth handlers as they run, one request at a time, on the encrypted
 tables. What they do is stated on the decrypted view of the table: the
 encrypted store behaves like a plain map from key to token.
 */
module TokenHandler {
  import opened Prelude
  import opened Crypto
  import opened Vault
  import opened VaultRuns

  // The HTTP outcome of a request.
  datatype Reply = Granted(access: Bytes, expiresAt: Option<Time>) | Stored(user: string) | Denied(status: int)

  // The decrypted view of oauth_tokens.
  ghost function Plain(env: Env, tenants: map<Id, Bytes>, rows: map<TokenKey, Row>): map<TokenKey, Token> {
    map k | k in rows && Readable(env, tenants, k, rows[k]) :: PlainRow(env, tenants, k, rows[k])
  }

  ghost predicate Readable(env: Env, tenants: map<Id, Bytes>, key: TokenKey, row: Row) {
    DataKey(env, tenants, key.tenant).Ok? && Meaning(env.aead, DataKey(env, tenants, key.tenant).value, row).Some?
  }

  ghost function PlainRow(env: Env, tenants: map<Id, Bytes>, key: TokenKey, row: Row): Token
    requires Readable(env, tenants, key, row)
  {
    Meaning(env.aead, DataKey(env, tenants, key.tenant).value, row).value
  }

  lemma PlainUpsert(env: Env, tenants: map<Id, Bytes>, rows: map<TokenKey, Row>, key: TokenKey, row: Row, token: Token)
    requires RowMeans(env, tenants, key, row, token)
    ensures Plain(env, tenants, rows[key := row]) == Plain(env, tenants, rows)[key := token]
  {
    var p, q := Plain(env, tenants, rows[key := row]), Plain(env, tenants, rows)[key := token];
    forall k
      ensures k in p <==> k in q
      ensures k in p ==> p[k] == q[k]
    {
    }
  }

  lemma PlainDelete(env: Env, tenants: map<Id, Bytes>, rows: map<TokenKey, Row>, key: TokenKey)
    ensures Plain(env, tenants, rows - {key}) == Plain(env, tenants, rows) - {key}
  {
  }

  // ---------- The handlers on plaintext ----------

  predicate Due(now: Time, token: Token) {
    token.expiry.Some? && token.expiry.value - now < MARGIN
  }

  // Random bytes needed to encrypt a token: one nonce, two with a refresh token.
  function NoncesFor(token: Token): nat {
    if token.refresh != [] then 2 * NONCE_SIZE else NONCE_SIZE
  }

  // GetToken: 404 without a row; the stored token while it is fresh; otherwise the refreshed one, or
  // 502 and no change when it cannot be refreshed.
  function Serve(view: map<TokenKey, Token>, key: TokenKey, now: Time, configured: bool,
                 refresh: Bytes -> Result<Token, string>, entropy: nat): (map<TokenKey, Token>, Reply)
  {
    if key !in view then (view, Denied(404))
    else if !Due(now, view[key]) then (view, Granted(view[key].access, view[key].expiry))
    else if view[key].refresh == [] || !configured then (view, Denied(502))
    else
      match refresh(view[key].refresh)
      case Err(_) => (view, Denied(502))
      case Ok(token) =>
        if entropy < NoncesFor(token) then (view, Denied(502))
        else (view[key := Merged(view[key], token)], Granted(token.access, token.expiry))
  }

  // What that comes to, for a key that is there.
  lemma ServeCases(view: map<TokenKey, Token>, key: TokenKey, now: Time, configured: bool,
                   refresh: Bytes -> Result<Token, string>, entropy: nat)
    requires key in view
    ensures var (view', reply), token := Serve(view, key, now, configured, refresh, entropy), view[key];
            var lasting := token.expiry.None? || token.expiry.value - now >= 30_000_000_000;
            var answer := refresh(token.refresh);
            if lasting then
              reply == Granted(token.access, token.expiry) && view' == view
            else if token.refresh != [] && configured && answer.Ok?
                    && (if answer.value.refresh == [] then 12 else 24) <= entropy then
              && reply == Granted(answer.value.access, answer.value.expiry)
              && view' == view[key := Token(
                   answer.value.access,
                   if answer.value.refresh == [] then token.refresh else answer.value.refresh,
                   answer.value.expiry)]
            else
              reply == Denied(502) && view' == view
  {
  }

  // Requests for other keys see nothing of it, and a refresh token is replaced only by a newer one.
  lemma ServeKeepsRefreshTokens(view: map<TokenKey, Token>, key: TokenKey, now: Time, configured: bool,
                                refresh: Bytes -> Result<Token, string>, entropy: nat)
    ensures var (view', reply) := Serve(view, key, now, configured, refresh, entropy);
            && view'.Keys == view.Keys
            && (forall k | k in view && k != key :: view'[k] == view[k])
            && (key in view && view[key].refresh != [] ==> view'[key].refresh != [])
            && (key in view && view'[key].refresh != view[key].refresh ==>
                  refresh(view[key].refresh).Ok? && view'[key].refresh == refresh(view[key].refresh).value.refresh)
            && (reply.Granted? ==> key in view' && reply == Granted(view'[key].access, view'[key].expiry))
  {
  }

  // ---------- The tables ----------

  class Tables {
    var tenants: map<Id, Bytes>
    // The tenant of each hashed API key; no two tenants share a hash.
    var keyHashes: map<Bytes, Id>
    var configs: map<ConfigKey, ProviderConfig>
    var rows: map<TokenKey, Row>

    constructor ()
      ensures tenants == map[] && keyHashes == map[] && configs == map[] && rows == map[]
    {
      tenants, keyHashes, configs, rows := map[], map[], map[], map[];
    }

    // The row of a tenant, provider and user, if there is one.
    method GetOAuthToken(key: TokenKey) returns (row: Option<Row>)
      ensures row.Some? <==> key in rows
      ensures row.Some? ==> row.value == rows[key]
    {
      row := if key in rows then Some(rows[key]) else None;
    }

    // An insert that overwrites the row of the same tenant, provider and user; the row is returned.
    method UpsertOAuthToken(key: TokenKey, access: Bytes, refresh: Bytes, expiresAt: Option<Time>) returns (row: Row)
      modifies this`rows
      ensures row == Row(access, refresh, expiresAt) && rows == old(rows)[key := row]
    {
      row := Row(access, refresh, expiresAt);
      rows := rows[key := row];
    }

    method DeleteOAuthToken(key: TokenKey)
      modifies this`rows
      ensures rows == old(rows) - {key}
    {
      rows := rows - {key};
    }
  }

  // ---------- The handlers ----------

  class Handler {
    const env: Env
    const hash: Bytes -> Bytes
    const tables: Tables

    constructor (aead: Aead, root: Bytes, hash: Bytes -> Bytes)
      requires |root| == KEY_SIZE
      ensures Valid() && fresh(tables) && View() == map[] && env == Env(aead, root) && this.hash == hash
    {
      env := Env(aead, root);
      this.hash := hash;
      tables := new Tables();
    }

    ghost function View(): map<TokenKey, Token>
      reads this, tables
    {
      Plain(env, tables.tenants, tables.rows)
    }

    // Every data key opens to 32 bytes, every row and every client secret decrypts.
    ghost predicate Valid()
      reads this, tables
    {
      && |env.root| == KEY_SIZE
      && (forall t | t in tables.tenants ::
            DataKey(env, tables.tenants, t).Ok? && |DataKey(env, tables.tenants, t).value| == KEY_SIZE)
      && (forall k | k in tables.rows :: exists token :: RowMeans(env, tables.tenants, k, tables.rows[k], token))
    }

    // The tenant an API key belongs to.
    function TenantOf(apiKey: Bytes): Option<Id>
      reads tables
    {
      if hash(apiKey) in tables.keyHashes then Some(tables.keyHashes[hash(apiKey)]) else None
    }

    // tenant.Create: an API key, of which the hash is stored, and a data key, stored sealed under the root
    // key: the next random bytes. The API key identifies the new tenant, and every other one whom it did.
    method CreateTenant(id: Id, random: RandomReader) returns (apiKey: Option<Bytes>)
      requires Valid() && id !in tables.tenants
      modifies tables`tenants, tables`keyHashes, random
      ensures Valid() && View() == old(View())
      ensures apiKey.Some? <==>
                32 + 32 + 12 <= |old(random.left)| && old(TenantOf(random.left[..32])).None?
      ensures apiKey.Some? ==>
                && apiKey.value == old(random.left)[..32] && TenantOf(apiKey.value) == Some(id)
                && id in tables.tenants && DataKey(env, tables.tenants, id) == Ok(old(random.left)[32..64])
                && forall k: Bytes :: hash(k) != hash(apiKey.value) ==> TenantOf(k) == old(TenantOf(k))
      ensures forall k: Bytes :: old(TenantOf(k)).Some? ==> TenantOf(k) == old(TenantOf(k))
      ensures apiKey.None? ==> tables.tenants == old(tables.tenants) && tables.keyHashes == old(tables.keyHashes)
    {
      var raw := new Byte[KEY_SIZE];
      var ok := random.ReadFull(raw);
      if !ok {
        return None;
      }
      var enc := new Encryptor(env.aead, env.root);
      var generated := enc.GenerateDataKey(random);
      if generated.Err? || TenantOf(raw[..]).Some? {
        return None;
      }
      assert old(random.left)[32..][..32] == old(random.left)[32..64];
      ghost var before := tables.tenants;
      tables.tenants := tables.tenants[id := generated.value.1];
      tables.keyHashes := tables.keyHashes[hash(raw[..]) := id];
      NewTenantKeepsRows(env, before, tables.tenants, tables.rows);
      apiKey := Some(raw[..]);
    }

    // SetProviderConfig: the client secret is stored sealed under the tenant's data key.
    method SetProviderConfig(key: ConfigKey, clientId: string, secret: Bytes, random: RandomReader) returns (ok: bool)
      requires Valid() && key.tenant in tables.tenants
      modifies tables`configs, random
      ensures Valid() && View() == old(View())
      ensures ok <==> NONCE_SIZE <= |old(random.left)|
      ensures ok && key.provider == GOOGLE ==>
                BuildProvider(env, tables.tenants, tables.configs, key.tenant, key.provider) == Ok((clientId, secret))
      ensures ok && key.provider != GOOGLE ==>
                BuildProvider(env, tables.tenants, tables.configs, key.tenant, key.provider)
                == Err("unsupported provider")
      ensures forall t: Id, p: string | ConfigKey(t, p) != key ::
                BuildProvider(env, tables.tenants, tables.configs, t, p)
                == BuildProvider(env, tables.tenants, old(tables.configs), t, p)
      ensures !ok ==> tables.configs == old(tables.configs)
    {
      var sealed := Encrypt(env.aead, random, DataKey(env, tables.tenants, key.tenant).value, secret);
      ok := sealed.Ok?;
      if ok {
        tables.configs := tables.configs[key := ProviderConfig(clientId, sealed.value)];
      }
    }

    // Callback, given what the provider answers to the exchange and to the question who the user is.
    method Callback(tenant: Id, provider: string, exchange: Result<Token, string>, userInfo: Result<string, string>,
                    random: RandomReader) returns (reply: Reply)
      requires Valid()
      modifies tables`rows, random
      ensures Valid()
      ensures reply == Denied(400) <==> tenant !in tables.tenants
      ensures reply == Denied(502) <==>
                && tenant in tables.tenants
                && BuildProvider(env, tables.tenants, tables.configs, tenant, provider).Ok?
                && (exchange.Err? || userInfo.Err?)
      ensures reply.Stored? <==>
                && tenant in tables.tenants
                && BuildProvider(env, tables.tenants, tables.configs, tenant, provider).Ok?
                && exchange.Ok? && userInfo.Ok?
                && (if exchange.value.refresh == [] then 12 else 24) <= |old(random.left)|
      ensures reply.Stored? ==>
                && reply.user == userInfo.value
                && View() == old(View())[TokenKey(tenant, provider, reply.user) := exchange.value]
      ensures !reply.Stored? ==> reply in {Denied(400), Denied(502), Denied(500)} && tables.rows == old(tables.rows)
    {
      if tenant !in tables.tenants {
        return Denied(400);
      }
      var built := BuildProvider(env, tables.tenants, tables.configs, tenant, provider);
      if built.Err? {
        return Denied(500);
      }
      if exchange.Err? || userInfo.Err? {
        return Denied(502);
      }
      var token, key := exchange.value, TokenKey(tenant, provider, userInfo.value);
      ghost var left := random.left;
      var row := SealToken(tenant, token, NoRow, random);
      if row.None? {
        return Denied(500);
      }
      ghost var rows := tables.rows;
      var stored := tables.UpsertOAuthToken(key, row.value.access, row.value.refresh, row.value.expiresAt);
      CallbackMeansToken(env, tables.tenants, key, token, left);
      PlainUpsert(env, tables.tenants, rows, key, stored, token);
      reply := Stored(userInfo.value);
    }

    // Encrypts a token under fresh nonces; the refresh column of the given row is kept if the token
    // brings no refresh token.
    method SealToken(tenant: Id, token: Token, kept: Row, random: RandomReader) returns (row: Option<Row>)
      requires Valid() && tenant in tables.tenants
      modifies random
      ensures row.Some? <==> NoncesFor(token) <= |old(random.left)|
      ensures row.Some? ==>
                var left := old(random.left);
                row.value == RefreshRow(env.aead, DataKey(env, tables.tenants, tenant).value, kept, token,
                                        left[..NONCE_SIZE],
                                        if token.refresh != [] then left[NONCE_SIZE..2 * NONCE_SIZE] else [])
    {
      var dataKey := DataKey(env, tables.tenants, tenant).value;
      var access := Encrypt(env.aead, random, dataKey, token.access);
      if access.Err? {
        return None;
      }
      var refresh := kept.refresh;
      if token.refresh != [] {
        var sealed := Encrypt(env.aead, random, dataKey, token.refresh);
        if sealed.Err? {
          return None;
        }
        refresh := sealed.value;
        assert old(random.left)[NONCE_SIZE..][..NONCE_SIZE] == old(random.left)[NONCE_SIZE..2 * NONCE_SIZE];
      }
      row := Some(Row(access.value, refresh, token.expiry));
    }

    // refreshAndStore on the row just read.
    method RefreshAndStore(key: TokenKey, row: Row, refresh: Bytes -> Result<Token, string>, random: RandomReader)
      returns (updated: Option<Row>)
      requires Valid() && key in tables.rows && row == tables.rows[key]
      modifies tables`rows, random
      ensures Valid()
      ensures key in old(View())
      ensures var view, token := old(View()), old(View())[key];
              var configured := BuildProvider(env, tables.tenants, tables.configs, key.tenant, key.provider).Ok?;
              && (updated.Some? <==>
                    && token.refresh != [] && configured && refresh(token.refresh).Ok?
                    && NoncesFor(refresh(token.refresh).value) <= |old(random.left)|)
              && (updated.None? ==> tables.rows == old(tables.rows))
              && (updated.Some? ==>
                    var merged := Merged(token, refresh(token.refresh).value);
                    View() == view[key := merged] && RowMeans(env, tables.tenants, key, updated.value, merged))
    {
      ghost var rows := tables.rows;
      ghost var token :| RowMeans(env, tables.tenants, key, row, token);
      if |row.refresh| == 0 {
        return None;
      }
      var dataKey := DataKey(env, tables.tenants, key.tenant).value;
      var current := Decrypt(env.aead, dataKey, row.refresh).value;
      if BuildProvider(env, tables.tenants, tables.configs, key.tenant, key.provider).Err? {
        return None;
      }
      var answer := refresh(current);
      if answer.Err? {
        return None;
      }
      ghost var left := random.left;
      var sealed := SealToken(key.tenant, answer.value, row, random);
      if sealed.None? {
        return None;
      }
      var stored := tables.UpsertOAuthToken(key, sealed.value.access, sealed.value.refresh, sealed.value.expiresAt);
      RefreshMeansMerged(env, tables.tenants, key, row, token, answer.value, left);
      PlainUpsert(env, tables.tenants, rows, key, stored, Merged(token, answer.value));
      updated := Some(stored);
    }

    // The row itself while it lasts, else the refreshed one, or none if it cannot be refreshed.
    method RefreshIfExpiring(key: TokenKey, row: Row, now: Time, refresh: Bytes -> Result<Token, string>,
                             random: RandomReader) returns (current: Option<Row>)
      requires Valid() && key in tables.rows && row == tables.rows[key]
      modifies tables`rows, random
      ensures Valid() && key in old(View())
      ensures var view, token := old(View()), old(View())[key];
              var configured := BuildProvider(env, tables.tenants, tables.configs, key.tenant, key.provider).Ok?;
              if !Due(now, token) then
                current.Some? && View() == view && RowMeans(env, tables.tenants, key, current.value, token)
              else if token.refresh != [] && configured && refresh(token.refresh).Ok?
                      && NoncesFor(refresh(token.refresh).value) <= |old(random.left)| then
                var merged := Merged(token, refresh(token.refresh).value);
                && current.Some? && View() == view[key := merged]
                && RowMeans(env, tables.tenants, key, current.value, merged)
              else current.None? && View() == view
    {
      ghost var token :| RowMeans(env, tables.tenants, key, row, token);
      assert key in View() && View()[key] == token;
      current := Some(row);
      if Expiring(now, row) {
        current := RefreshAndStore(key, row, refresh, random);
      }
    }

    // GetToken behaves as Serve does on the decrypted view. Case by case: 404 for no token; a stored token
    // with no expiry or at least 30 seconds left is granted as it is; any other is granted only as the
    // provider has just refreshed it, which is then stored; and if that fails, 502 and nothing changes.
    method GetToken(key: TokenKey, now: Time, refresh: Bytes -> Result<Token, string>, random: RandomReader)
      returns (reply: Reply)
      requires Valid()
      modifies tables`rows, random
      ensures Valid()
      ensures (View(), reply)
              == Serve(old(View()), key, now,
                       BuildProvider(env, tables.tenants, tables.configs, key.tenant, key.provider).Ok?,
                       refresh, |old(random.left)|)
      ensures reply == Denied(404) <==> key !in old(View())
      ensures key in old(View()) ==>
                var view, token := old(View()), old(View())[key];
                var lasting := token.expiry.None? || token.expiry.value - now >= 30_000_000_000;
                var configured := BuildProvider(env, tables.tenants, tables.configs, key.tenant, key.provider).Ok?;
                var answer := refresh(token.refresh);
                if lasting then
                  reply == Granted(token.access, token.expiry) && View() == view
                else if token.refresh != [] && configured && answer.Ok?
                        && (if answer.value.refresh == [] then 12 else 24) <= |old(random.left)| then
                  && reply == Granted(answer.value.access, answer.value.expiry)
                  && View() == view[key := Token(
                       answer.value.access,
                       if answer.value.refresh == [] then token.refresh else answer.value.refresh,
                       answer.value.expiry)]
                else
                  reply == Denied(502) && View() == view
      ensures key !in old(View()) ==> View() == old(View())
    {
      var found := tables.GetOAuthToken(key);
      if found.None? {
        return Denied(404);
      }
      ghost var token :| RowMeans(env, tables.tenants, key, found.value, token);
      assert key in View() && View()[key] == token;
      ServeCases(View(), key, now, BuildProvider(env, tables.tenants, tables.configs, key.tenant, key.provider).Ok?,
                 refresh, |random.left|);
      var current := RefreshIfExpiring(key, found.value, now, refresh, random);
      if current.None? {
        return Denied(502);
      }
      var row := current.value;
      var access := Decrypt(env.aead, DataKey(env, tables.tenants, key.tenant).value, row.access);
      reply := Granted(access.value, row.expiresAt);
    }

    method DeleteToken(key: TokenKey)
      requires Valid()
      modifies tables`rows
      ensures Valid()
      ensures View() == old(View()) - {key}
    {
      ghost var rows := tables.rows;
      PlainDelete(env, tables.tenants, rows, key);
      tables.DeleteOAuthToken(key);
      forall k | k in tables.rows
        ensures exists token :: RowMeans(env, tables.tenants, k, tables.rows[k], token)
      {
        var token :| RowMeans(env, tables.tenants, k, rows[k], token);
        assert RowMeans(env, tables.tenants, k, tables.rows[k], token);
      }
    }
  }

  // ---------- Rows ----------

  // What a callback starts from: no row, no refresh token.
  const NoRow := Row([], [], None)

  lemma CallbackMeansToken(env: Env, tenants: map<Id, Bytes>, key: TokenKey, token: Token, left: Bytes)
    requires DataKey(env, tenants, key.tenant).Ok? && IsKey(DataKey(env, tenants, key.tenant).value)
    requires NoncesFor(token) <= |left|
    ensures RowMeans(env, tenants, key,
                     RefreshRow(env.aead, DataKey(env, tenants, key.tenant).value, NoRow, token, left[..NONCE_SIZE],
                                if token.refresh != [] then left[NONCE_SIZE..2 * NONCE_SIZE] else []),
                     token)
  {
    var n2 := if token.refresh != [] then left[NONCE_SIZE..2 * NONCE_SIZE] else [];
    CallbackRowMeans(env, tenants, key, token, left[..NONCE_SIZE], n2);
  }

  lemma RefreshMeansMerged(env: Env, tenants: map<Id, Bytes>, key: TokenKey, row: Row, kept: Token, token: Token,
                           left: Bytes)
    requires RowMeans(env, tenants, key, row, kept) && IsKey(DataKey(env, tenants, key.tenant).value)
    requires NoncesFor(token) <= |left|
    ensures RowMeans(env, tenants, key,
                     RefreshRow(env.aead, DataKey(env, tenants, key.tenant).value, row, token, left[..NONCE_SIZE],
                                if token.refresh != [] then left[NONCE_SIZE..2 * NONCE_SIZE] else []),
                     Merged(kept, token))
  {
    var n2 := if token.refresh != [] then left[NONCE_SIZE..2 * NONCE_SIZE] else [];
    RefreshRowMeans(env, tenants, key, row, kept, token, left[..NONCE_SIZE], n2);
  }

  lemma NewTenantKeepsRows(env: Env, tenants: map<Id, Bytes>, tenants': map<Id, Bytes>, rows: map<TokenKey, Row>)
    requires forall t | t in tenants :: t in tenants' && tenants'[t] == tenants[t]
    requires forall k | k in rows :: exists token :: RowMeans(env, tenants, k, rows[k], token)
    ensures Plain(env, tenants', rows) == Plain(env, tenants, rows)
    ensures forall k | k in rows :: exists token :: RowMeans(env, tenants', k, rows[k], token)
  {
    forall k | k in rows
      ensures Readable(env, tenants, k, rows[k]) && Readable(env, tenants', k, rows[k])
      ensures exists token :: RowMeans(env, tenants', k, rows[k], token)
    {
      var token :| RowMeans(env, tenants, k, rows[k], token);
      assert RowMeans(env, tenants', k, rows[k], token);
    }
  }

  // ---------- The handlers and the interleaved store ----------

  // The decrypted view of the handlers is the record of plaintexts of the transition system.
  lemma PlainIsView(env: Env, s: State)
    requires RowsOk(env, s)
    ensures Plain(env, s.tenants, s.rows) == s.view
  {
    var p := Plain(env, s.tenants, s.rows);
    forall k
      ensures k in p <==> k in s.view
      ensures k in p ==> p[k] == s.view[k]
    {
      if k in s.rows {
        assert RowMeans(env, s.tenants, k, s.rows[k], s.view[k]);
      }
      assert k in s.rows.Keys <==> k in s.view.Keys;
    }
  }

  ghost predicate StepsTo(env: Env, s: State, a: Step, s': State) {
    Enabled(env, s, a) && s' == Apply(env, s, a)
  }

  ghost function PlainOf(env: Env, s: State): map<TokenKey, Token> {
    Plain(env, s.tenants, s.rows)
  }

  // Reading, refreshing and storing with nothing in between has, on the decrypted table, exactly the
  // effect and the answer of Serve.
  lemma UninterruptedRefreshServes(env: Env, s: State, op: Id, key: TokenKey, token: Token, n1: Bytes, n2: Bytes,
                                   refresh: Bytes -> Result<Token, string>)
    returns (s1: State, s2: State, s3: State)
    requires Inv(env, s) && op !in s.ops && IsNonce(n1) && IsNonce(n2)
    requires var view := PlainOf(env, s);
             && key in view && Due(s.clock, view[key])
             && view[key].refresh != [] && refresh(view[key].refresh) == Ok(token)
    requires BuildProvider(env, s.tenants, s.configs, key.tenant, key.provider).Ok?
    requires MayIssue(s.issued, Issue(key, token))
    ensures StepsTo(env, s, ReadExpiring(op, key), s1)
    ensures StepsTo(env, s1, Refresh(op, key, token), s2)
    ensures StepsTo(env, s2, StoreRefresh(op, n1, n2), s3)
    ensures s3.answers == s.answers + [Answer(key, token.access, token.expiry)]
    ensures Serve(PlainOf(env, s), key, s.clock, true, refresh, NoncesFor(token))
            == (PlainOf(env, s3), Granted(token.access, token.expiry))
  {
    PlainIsView(env, s);
    s1 := Reads(env, s, op, key);
    s2 := Refreshes(env, s1, op, token);
    s3 := Stores(env, s2, op, n1, n2);
    ServeRefreshes(s.view, key, s.clock, refresh, token);
  }

  lemma ServeRefreshes(view: map<TokenKey, Token>, key: TokenKey, now: Time, refresh: Bytes -> Result<Token, string>,
                       token: Token)
    requires key in view && Due(now, view[key]) && view[key].refresh != [] && refresh(view[key].refresh) == Ok(token)
    ensures Serve(view, key, now, true, refresh, NoncesFor(token))
            == (view[key := Merged(view[key], token)], Granted(token.access, token.expiry))
  {
  }

  lemma Reads(env: Env, s: State, op: Id, key: TokenKey) returns (s': State)
    requires Inv(env, s) && op !in s.ops && key in s.view && Due(s.clock, s.view[key])
    ensures StepsTo(env, s, ReadExpiring(op, key), s') && Inv(env, s') && key in s.rows
    ensures s' == s.(ops := s.ops[op := Fetched(key, s.rows[key], s.view[key])])
  {
    assert key in s.rows.Keys && RowMeans(env, s.tenants, key, s.rows[key], s.view[key]);
    CanRead(env, s, op, key);
    s' := Apply(env, s, ReadExpiring(op, key));
    InvStep(env, s, ReadExpiring(op, key));
  }

  lemma Refreshes(env: Env, s: State, op: Id, token: Token) returns (s': State)
    requires Inv(env, s) && op in s.ops && s.ops[op].Fetched? && s.ops[op].plain.refresh != []
    requires var key := s.ops[op].key;
             && BuildProvider(env, s.tenants, s.configs, key.tenant, key.provider).Ok?
             && MayIssue(s.issued, Issue(key, token))
    ensures var o := s.ops[op];
            && StepsTo(env, s, Refresh(op, o.key, token), s') && Inv(env, s')
            && s' == s.(issued := s.issued + [Issue(o.key, token)],
                        ops := s.ops[op := Refreshed(o.key, o.row, o.plain, token)])
  {
    CanRefresh(env, s, op, token);
    s' := Apply(env, s, Refresh(op, s.ops[op].key, token));
    InvStep(env, s, Refresh(op, s.ops[op].key, token));
  }

  lemma Stores(env: Env, s: State, op: Id, n1: Bytes, n2: Bytes) returns (s': State)
    requires Inv(env, s) && op in s.ops && s.ops[op].Refreshed? && IsNonce(n1) && IsNonce(n2)
    ensures StepsTo(env, s, StoreRefresh(op, n1, n2), s')
    ensures var o := s.ops[op];
            && s'.answers == s.answers + [Answer(o.key, o.token.access, o.token.expiry)]
            && PlainOf(env, s') == s.view[o.key := Merged(o.plain, o.token)]
  {
    CanStore(env, s, op, n1, n2);
    StoreRefreshWrites(env, s, op, n1, n2);
    s' := Apply(env, s, StoreRefresh(op, n1, n2));
    InvStep(env, s, StoreRefresh(op, n1, n2));
    PlainIsView(env, s');
  }
}
