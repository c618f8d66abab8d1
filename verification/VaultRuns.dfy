/**
 The guarantees of the token store over every interleaving of callbacks,
 refreshes, reads and deletes.
 */
module VaultRuns {
  import opened Prelude
  import opened Crypto
  import opened Vault

  // What framing adds to a plaintext.
  const OVERHEAD := NONCE_SIZE + TAG_SIZE

  // ---------- The invariant ----------

  ghost predicate KeysOk(env: Env, s: State) {
    && |env.root| == KEY_SIZE
    && forall t | t in s.tenants ::
         && DataKey(env, s.tenants, t).Ok? && |DataKey(env, s.tenants, t).value| == KEY_SIZE
         && |s.tenants[t]| == KEY_SIZE + OVERHEAD
  }

  // Every stored client secret decrypts, through root key and data key, to the last one written.
  ghost predicate ConfigsOk(env: Env, s: State) {
    && s.configs.Keys == s.secrets.Keys
    && forall k | k in s.configs :: ConfigOk(env, s, k)
  }

  ghost predicate ConfigOk(env: Env, s: State, k: ConfigKey)
    requires k in s.configs
  {
    && k.tenant in s.tenants && k in s.secrets
    && DataKey(env, s.tenants, k.tenant).Ok?
    && Decrypt(env.aead, DataKey(env, s.tenants, k.tenant).value, s.configs[k].secret) == Ok(s.secrets[k])
    && |s.configs[k].secret| == |s.secrets[k]| + OVERHEAD
  }

  // The row of a key means this token, and its columns have the lengths of framed plaintexts, so that
  // the refresh column is empty exactly if there is no refresh token.
  ghost predicate RowMeans(env: Env, tenants: map<Id, Bytes>, key: TokenKey, row: Row, token: Token) {
    && DataKey(env, tenants, key.tenant).Ok?
    && Meaning(env.aead, DataKey(env, tenants, key.tenant).value, row) == Some(token)
    && |row.access| == |token.access| + OVERHEAD
    && |row.refresh| == if token.refresh == [] then 0 else |token.refresh| + OVERHEAD
  }

  // The provider issued this access token with this expiry, and this refresh token, for this key.
  ghost predicate Backed(issued: seq<Issue>, key: TokenKey, token: Token) {
    && (exists i | i in issued :: i.key == key && i.token.access == token.access && i.token.expiry == token.expiry)
    && (token.refresh != [] ==> exists i | i in issued :: i.key == key && i.token.refresh == token.refresh)
  }

  ghost predicate RowsOk(env: Env, s: State) {
    && s.rows.Keys == s.view.Keys
    && forall k | k in s.rows ::
         k in s.view && RowMeans(env, s.tenants, k, s.rows[k], s.view[k]) && Backed(s.issued, k, s.view[k])
  }

  ghost predicate OpOk(env: Env, s: State, o: Op) {
    match o
    case Exchanged(tenant, provider, token) =>
      exists i | i in s.issued :: i.key.tenant == tenant && i.key.provider == provider && i.token == token
    case Identified(key, token) => Issue(key, token) in s.issued
    case Fetched(key, row, plain) => RowMeans(env, s.tenants, key, row, plain) && Backed(s.issued, key, plain)
    case Refreshed(key, row, plain, token) =>
      && RowMeans(env, s.tenants, key, row, plain) && Backed(s.issued, key, plain)
      && plain.refresh != [] && Issue(key, token) in s.issued
  }

  ghost predicate OpsOk(env: Env, s: State) {
    forall op | op in s.ops :: OpOk(env, s, s.ops[op])
  }

  ghost predicate LedgerOk(issued: seq<Issue>) {
    forall i, j | i in issued && j in issued && i.key != j.key ::
      i.token.access != j.token.access && (i.token.refresh != [] ==> i.token.refresh != j.token.refresh)
  }

  ghost predicate AnswerOk(issued: seq<Issue>, r: Answer) {
    exists i | i in issued :: i.key == r.key && i.token.access == r.access && i.token.expiry == r.expiresAt
  }

  ghost predicate AnswersOk(s: State) {
    forall i | 0 <= i < |s.answers| :: AnswerOk(s.issued, s.answers[i])
  }

  ghost predicate Inv(env: Env, s: State) {
    && KeysOk(env, s) && ConfigsOk(env, s) && RowsOk(env, s) && OpsOk(env, s) && LedgerOk(s.issued) && AnswersOk(s)
  }

  // ---------- Writing and reading back ----------

  lemma CallbackRowMeans(env: Env, tenants: map<Id, Bytes>, key: TokenKey, token: Token, n1: Bytes, n2: Bytes)
    requires DataKey(env, tenants, key.tenant).Ok? && IsKey(DataKey(env, tenants, key.tenant).value)
    requires IsNonce(n1) && (token.refresh != [] ==> IsNonce(n2))
    ensures var dataKey := DataKey(env, tenants, key.tenant).value;
            RowMeans(env, tenants, key, CallbackRow(env.aead, dataKey, token, n1, n2), token)
  {
    var dataKey := DataKey(env, tenants, key.tenant).value;
    FrameRoundTrip(env.aead, dataKey, n1, token.access);
    if token.refresh != [] {
      FrameRoundTrip(env.aead, dataKey, n2, token.refresh);
    }
  }

  lemma RefreshRowMeans(env: Env, tenants: map<Id, Bytes>, key: TokenKey, row: Row, kept: Token, token: Token,
                        n1: Bytes, n2: Bytes)
    requires RowMeans(env, tenants, key, row, kept) && IsKey(DataKey(env, tenants, key.tenant).value)
    requires IsNonce(n1) && (token.refresh != [] ==> IsNonce(n2))
    ensures var dataKey := DataKey(env, tenants, key.tenant).value;
            RowMeans(env, tenants, key, RefreshRow(env.aead, dataKey, row, token, n1, n2), Merged(kept, token))
  {
    var dataKey := DataKey(env, tenants, key.tenant).value;
    FrameRoundTrip(env.aead, dataKey, n1, token.access);
    if token.refresh != [] {
      FrameRoundTrip(env.aead, dataKey, n2, token.refresh);
    }
  }

  // ---------- Frames ----------

  // Tenants keep their keys and the ledger only grows.
  ghost predicate Extends(env: Env, s: State, s': State) {
    && (forall i | i in s.issued :: i in s'.issued)
    && forall t | t in s.tenants :: t in s'.tenants && s'.tenants[t] == s.tenants[t]
  }

  lemma StepExtends(env: Env, s: State, a: Step)
    requires Enabled(env, s, a)
    ensures Extends(env, s, Apply(env, s, a))
  {
  }

  lemma BackedGrows(issued: seq<Issue>, issued': seq<Issue>, key: TokenKey, token: Token)
    requires (forall i | i in issued :: i in issued') && Backed(issued, key, token)
    ensures Backed(issued', key, token)
  {
  }

  lemma RowMeansExtends(env: Env, s: State, s': State, key: TokenKey, row: Row, token: Token)
    requires Extends(env, s, s') && RowMeans(env, s.tenants, key, row, token)
    ensures RowMeans(env, s'.tenants, key, row, token)
  {
  }

  lemma OpExtends(env: Env, s: State, s': State, o: Op)
    requires Extends(env, s, s') && OpOk(env, s, o)
    ensures OpOk(env, s', o)
  {
    match o
    case Exchanged(_, _, _) =>
    case Identified(_, _) =>
    case Fetched(key, row, plain) =>
      RowMeansExtends(env, s, s', key, row, plain);
      BackedGrows(s.issued, s'.issued, key, plain);
    case Refreshed(key, row, plain, _) =>
      RowMeansExtends(env, s, s', key, row, plain);
      BackedGrows(s.issued, s'.issued, key, plain);
  }

  // ---------- Preservation ----------

  lemma KeysStep(env: Env, s: State, a: Step)
    requires KeysOk(env, s) && Enabled(env, s, a)
    ensures KeysOk(env, Apply(env, s, a))
  {
    if a.CreateTenant? {
      FrameRoundTrip(env.aead, env.root, a.n1, a.dataKey);
    }
  }

  lemma ConfigsStep(env: Env, s: State, a: Step)
    requires KeysOk(env, s) && ConfigsOk(env, s) && Enabled(env, s, a)
    ensures ConfigsOk(env, Apply(env, s, a))
  {
    var s' := Apply(env, s, a);
    StepExtends(env, s, a);
    forall k | k in s'.configs
      ensures ConfigOk(env, s', k)
    {
      if a.SetConfig? && k == a.config {
        FrameRoundTrip(env.aead, DataKey(env, s.tenants, k.tenant).value, a.n1, a.secret);
      } else {
        assert ConfigOk(env, s, k);
      }
    }
  }

  lemma LedgerStep(env: Env, s: State, a: Step)
    requires LedgerOk(s.issued) && Enabled(env, s, a)
    ensures LedgerOk(Apply(env, s, a).issued)
  {
    var s' := Apply(env, s, a);
    if a.Exchange? {
      LedgerAdd(s.issued, Issue(a.key, a.token));
    } else if a.Refresh? {
      LedgerAdd(s.issued, Issue(a.owner, a.token));
    } else {
      assert s'.issued == s.issued;
    }
  }

  lemma LedgerAdd(issued: seq<Issue>, i: Issue)
    requires LedgerOk(issued) && MayIssue(issued, i)
    ensures LedgerOk(issued + [i])
  {
  }

  // The owner of the refresh token shown to the provider is the key whose row it was read from.
  lemma RefreshOwner(env: Env, s: State, a: Step)
    requires OpsOk(env, s) && LedgerOk(s.issued) && Enabled(env, s, a) && a.Refresh?
    ensures a.owner == s.ops[a.op].key
  {
    var o := s.ops[a.op];
    assert OpOk(env, s, o);
    var i :| i in s.issued && i.key == o.key && i.token.refresh == o.plain.refresh;
    var j :| j in s.issued && j.key == a.owner && j.token.refresh == o.plain.refresh;
  }

  // The user the provider names for an access token is the user it was issued to.
  lemma IdentifiedOwner(env: Env, s: State, a: Step)
    requires OpsOk(env, s) && LedgerOk(s.issued) && Enabled(env, s, a) && a.Identify?
    ensures var o := s.ops[a.op]; Issue(TokenKey(o.tenant, o.provider, a.user), o.token) in s.issued
  {
    var o := s.ops[a.op];
    assert OpOk(env, s, o);
    var i :| i in s.issued && i.key.tenant == o.tenant && i.key.provider == o.provider && i.token == o.token;
    var j :| j in s.issued && j.key == TokenKey(o.tenant, o.provider, a.user) && j.token.access == o.token.access;
    assert i.key == j.key;
    assert i == Issue(j.key, o.token);
  }

  lemma OpsStep(env: Env, s: State, a: Step)
    requires Inv(env, s) && Enabled(env, s, a)
    ensures OpsOk(env, Apply(env, s, a))
  {
    var s' := Apply(env, s, a);
    StepExtends(env, s, a);
    forall op | op in s'.ops
      ensures OpOk(env, s', s'.ops[op])
    {
      if op in s.ops && s'.ops[op] == s.ops[op] {
        OpExtends(env, s, s', s.ops[op]);
      } else {
        NewOpOk(env, s, a);
      }
    }
  }

  function OpOf(a: Step): Id {
    match a
    case Exchange(op, _, _) => op
    case Identify(op, _) => op
    case ReadExpiring(op, _) => op
    case Refresh(op, _, _) => op
    case _ => 0
  }

  lemma NewOpOk(env: Env, s: State, a: Step)
    requires RowsOk(env, s) && OpsOk(env, s) && LedgerOk(s.issued) && Enabled(env, s, a)
    requires a.Exchange? || a.Identify? || a.ReadExpiring? || a.Refresh?
    ensures var s' := Apply(env, s, a); OpOf(a) in s'.ops && OpOk(env, s', s'.ops[OpOf(a)])
  {
    var s' := Apply(env, s, a);
    match a
    case Exchange(op, key, token) =>
      assert s'.ops[op] == Exchanged(key.tenant, key.provider, token) && Issue(key, token) in s'.issued;
    case Identify(op, user) =>
      IdentifiedOwner(env, s, a);
    case ReadExpiring(op, key) =>
      FetchedOpOk(env, s, op, key);
    case Refresh(op, owner, token) =>
      RefreshedOpOk(env, s, a);
  }

  lemma FetchedOpOk(env: Env, s: State, op: Id, key: TokenKey)
    requires RowsOk(env, s) && Enabled(env, s, ReadExpiring(op, key))
    ensures var s' := Apply(env, s, ReadExpiring(op, key)); op in s'.ops && OpOk(env, s', s'.ops[op])
  {
    assert RowMeans(env, s.tenants, key, s.rows[key], s.view[key]) && Backed(s.issued, key, s.view[key]);
  }

  lemma RefreshedOpOk(env: Env, s: State, a: Step)
    requires OpsOk(env, s) && LedgerOk(s.issued) && Enabled(env, s, a) && a.Refresh?
    ensures var s' := Apply(env, s, a); a.op in s'.ops && OpOk(env, s', s'.ops[a.op])
  {
    var s', o := Apply(env, s, a), s.ops[a.op];
    RefreshOwner(env, s, a);
    assert OpOk(env, s, o);
    assert Extends(env, s, s');
    OpExtends(env, s, s', o);
    assert s'.ops[a.op] == Refreshed(o.key, o.row, o.plain, a.token) && Issue(o.key, a.token) in s'.issued;
  }

  // Rows are kept or removed.
  lemma RowsKept(env: Env, s: State, s': State)
    requires RowsOk(env, s) && Extends(env, s, s') && s'.rows.Keys == s'.view.Keys
    requires forall k | k in s'.rows :: k in s.rows && s'.rows[k] == s.rows[k] && s'.view[k] == s.view[k]
    ensures RowsOk(env, s')
  {
    forall k | k in s'.rows
      ensures RowMeans(env, s'.tenants, k, s'.rows[k], s'.view[k]) && Backed(s'.issued, k, s'.view[k])
    {
      RowMeansExtends(env, s, s', k, s.rows[k], s.view[k]);
      BackedGrows(s.issued, s'.issued, k, s.view[k]);
    }
  }

  // One row is written.
  lemma RowsUpsert(env: Env, s: State, s': State, key: TokenKey, row: Row, plain: Token)
    requires RowsOk(env, s) && s'.tenants == s.tenants && s'.issued == s.issued
    requires s'.rows == s.rows[key := row] && s'.view == s.view[key := plain]
    requires RowMeans(env, s.tenants, key, row, plain) && Backed(s.issued, key, plain)
    ensures RowsOk(env, s')
  {
  }

  lemma OtherStepsKeepRows(env: Env, s: State, a: Step)
    requires RowsOk(env, s) && Enabled(env, s, a) && !a.StoreCallback? && !a.StoreRefresh?
    ensures RowsOk(env, Apply(env, s, a))
  {
    StepExtends(env, s, a);
    RowsUntouched(env, s, a);
    RowsKept(env, s, Apply(env, s, a));
  }

  lemma RowsUntouched(env: Env, s: State, a: Step)
    requires s.rows.Keys == s.view.Keys && Enabled(env, s, a) && !a.StoreCallback? && !a.StoreRefresh?
    ensures var s' := Apply(env, s, a);
            && s'.rows.Keys == s'.view.Keys
            && forall k | k in s'.rows :: k in s.rows && s'.rows[k] == s.rows[k] && s'.view[k] == s.view[k]
  {
  }

  lemma StoreCallbackKeepsRows(env: Env, s: State, op: Id, n1: Bytes, n2: Bytes)
    requires KeysOk(env, s) && OpsOk(env, s) && RowsOk(env, s) && Enabled(env, s, StoreCallback(op, n1, n2))
    ensures RowsOk(env, Apply(env, s, StoreCallback(op, n1, n2)))
  {
    var s', key := Apply(env, s, StoreCallback(op, n1, n2)), s.ops[op].key;
    StoreCallbackWrites(env, s, op, n1, n2);
    RowsUpsert(env, s, s', key, s'.rows[key], s'.view[key]);
  }

  lemma StoreRefreshKeepsRows(env: Env, s: State, op: Id, n1: Bytes, n2: Bytes)
    requires KeysOk(env, s) && OpsOk(env, s) && RowsOk(env, s) && Enabled(env, s, StoreRefresh(op, n1, n2))
    ensures RowsOk(env, Apply(env, s, StoreRefresh(op, n1, n2)))
  {
    var s', key := Apply(env, s, StoreRefresh(op, n1, n2)), s.ops[op].key;
    StoreRefreshWrites(env, s, op, n1, n2);
    RowsUpsert(env, s, s', key, s'.rows[key], s'.view[key]);
  }

  lemma RowsStep(env: Env, s: State, a: Step)
    requires KeysOk(env, s) && OpsOk(env, s) && RowsOk(env, s) && Enabled(env, s, a)
    ensures RowsOk(env, Apply(env, s, a))
  {
    match a
    case StoreCallback(op, n1, n2) => StoreCallbackKeepsRows(env, s, op, n1, n2);
    case StoreRefresh(op, n1, n2) => StoreRefreshKeepsRows(env, s, op, n1, n2);
    case _ => OtherStepsKeepRows(env, s, a);
  }

  // A callback stores exactly the token it was issued.
  lemma StoreCallbackWrites(env: Env, s: State, op: Id, n1: Bytes, n2: Bytes)
    requires KeysOk(env, s) && OpsOk(env, s) && Enabled(env, s, StoreCallback(op, n1, n2))
    ensures var key, token := s.ops[op].key, s.ops[op].token;
            var row := CallbackRow(env.aead, DataKey(env, s.tenants, key.tenant).value, token, n1, n2);
            && Apply(env, s, StoreCallback(op, n1, n2)) == Upsert(s, op, key, row, token)
            && RowMeans(env, s.tenants, key, row, token) && Backed(s.issued, key, token)
  {
    assert OpOk(env, s, s.ops[op]);
    CallbackRowMeans(env, s.tenants, s.ops[op].key, s.ops[op].token, n1, n2);
  }

  // A refresh stores the new token, with the refresh token it read if the provider sent none, and
  // answers with the new access token and its expiry.
  lemma StoreRefreshWrites(env: Env, s: State, op: Id, n1: Bytes, n2: Bytes)
    requires KeysOk(env, s) && OpsOk(env, s) && Enabled(env, s, StoreRefresh(op, n1, n2))
    ensures var o := s.ops[op];
            var row := RefreshRow(env.aead, DataKey(env, s.tenants, o.key.tenant).value, o.row, o.token, n1, n2);
            var s' := Upsert(s, op, o.key, row, Merged(o.plain, o.token));
            && Apply(env, s, StoreRefresh(op, n1, n2))
               == s'.(answers := s.answers + [Answer(o.key, o.token.access, o.token.expiry)])
            && RowMeans(env, s.tenants, o.key, row, Merged(o.plain, o.token))
            && Backed(s.issued, o.key, Merged(o.plain, o.token)) && Issue(o.key, o.token) in s.issued
  {
    var o := s.ops[op];
    assert OpOk(env, s, o);
    RefreshRowMeans(env, s.tenants, o.key, o.row, o.plain, o.token, n1, n2);
    MergedBacked(s.issued, o.key, o.plain, o.token);
  }

  lemma MergedBacked(issued: seq<Issue>, key: TokenKey, kept: Token, token: Token)
    requires Backed(issued, key, kept) && Issue(key, token) in issued
    ensures Backed(issued, key, Merged(kept, token))
  {
  }

  lemma AnswersAdd(s: State, s': State, r: Answer)
    requires AnswersOk(s) && forall i | i in s.issued :: i in s'.issued
    requires s'.answers == s.answers + [r] && AnswerOk(s'.issued, r)
    ensures AnswersOk(s')
  {
    AnswersGrow(s, s'.issued);
  }

  lemma AnswersGrow(s: State, issued: seq<Issue>)
    requires AnswersOk(s) && forall i | i in s.issued :: i in issued
    ensures forall i | 0 <= i < |s.answers| :: AnswerOk(issued, s.answers[i])
  {
    forall i | 0 <= i < |s.answers|
      ensures AnswerOk(issued, s.answers[i])
    {
      assert AnswerOk(s.issued, s.answers[i]);
    }
  }

  lemma ReadAnswers(env: Env, s: State, key: TokenKey)
    requires RowsOk(env, s) && AnswersOk(s) && Enabled(env, s, ReadFresh(key))
    ensures AnswersOk(Apply(env, s, ReadFresh(key)))
  {
    RowAnswers(env, s, key);
    AnswersAdd(s, Apply(env, s, ReadFresh(key)), AnswerOf(env, s, key, s.rows[key]));
  }

  lemma RowAnswers(env: Env, s: State, key: TokenKey)
    requires RowsOk(env, s) && key in s.rows
    ensures AnswerOk(s.issued, AnswerOf(env, s, key, s.rows[key]))
  {
    assert RowMeans(env, s.tenants, key, s.rows[key], s.view[key]) && Backed(s.issued, key, s.view[key]);
  }

  lemma RefreshAnswers(env: Env, s: State, op: Id, n1: Bytes, n2: Bytes)
    requires KeysOk(env, s) && OpsOk(env, s) && AnswersOk(s) && Enabled(env, s, StoreRefresh(op, n1, n2))
    ensures AnswersOk(Apply(env, s, StoreRefresh(op, n1, n2)))
  {
    StoreRefreshWrites(env, s, op, n1, n2);
    var o := s.ops[op];
    AnswersAdd(s, Apply(env, s, StoreRefresh(op, n1, n2)), Answer(o.key, o.token.access, o.token.expiry));
  }

  lemma AnswersStep(env: Env, s: State, a: Step)
    requires KeysOk(env, s) && OpsOk(env, s) && RowsOk(env, s) && AnswersOk(s) && Enabled(env, s, a)
    ensures AnswersOk(Apply(env, s, a))
  {
    match a
    case ReadFresh(key) => ReadAnswers(env, s, key);
    case StoreRefresh(op, n1, n2) => RefreshAnswers(env, s, op, n1, n2);
    case _ =>
      StepExtends(env, s, a);
      AnswersGrow(s, Apply(env, s, a).issued);
  }

  lemma InvStep(env: Env, s: State, a: Step)
    requires Inv(env, s) && Enabled(env, s, a)
    ensures Inv(env, Apply(env, s, a))
  {
    KeysStep(env, s, a);
    ConfigsStep(env, s, a);
    LedgerStep(env, s, a);
    OpsStep(env, s, a);
    RowsStep(env, s, a);
    AnswersStep(env, s, a);
  }

  // ---------- What a request can do ----------

  // The row of an expiring token can be read,
  lemma CanRead(env: Env, s: State, op: Id, key: TokenKey)
    requires RowsOk(env, s) && op !in s.ops && key in s.rows && Expiring(s.clock, s.rows[key])
    ensures key in s.view && Enabled(env, s, ReadExpiring(op, key))
    ensures Apply(env, s, ReadExpiring(op, key)) == s.(ops := s.ops[op := Fetched(key, s.rows[key], s.view[key])])
  {
    assert RowMeans(env, s.tenants, key, s.rows[key], s.view[key]);
  }

  // its refresh token is accepted by the provider,
  lemma CanRefresh(env: Env, s: State, op: Id, token: Token)
    requires OpsOk(env, s) && op in s.ops && s.ops[op].Fetched? && s.ops[op].plain.refresh != []
    requires var key := s.ops[op].key;
             && BuildProvider(env, s.tenants, s.configs, key.tenant, key.provider).Ok?
             && MayIssue(s.issued, Issue(key, token))
    ensures var o := s.ops[op];
            && Enabled(env, s, Refresh(op, o.key, token))
            && Apply(env, s, Refresh(op, o.key, token))
               == s.(issued := s.issued + [Issue(o.key, token)],
                     ops := s.ops[op := Refreshed(o.key, o.row, o.plain, token)])
  {
    var o := s.ops[op];
    assert OpOk(env, s, o);
    var i :| i in s.issued && i.key == o.key && i.token.refresh == o.plain.refresh;
  }

  // and the answer can be stored.
  lemma CanStore(env: Env, s: State, op: Id, n1: Bytes, n2: Bytes)
    requires OpsOk(env, s) && op in s.ops && s.ops[op].Refreshed? && IsNonce(n1) && IsNonce(n2)
    ensures Enabled(env, s, StoreRefresh(op, n1, n2))
  {
    assert OpOk(env, s, s.ops[op]);
  }

  // ---------- Runs ----------

  type Run = Trace<State, Step>

  ghost predicate IsRun(env: Env, r: Run) {
    && |r.states| == |r.steps| + 1
    && |env.root| == KEY_SIZE && Init(r.states[0])
    && forall i | 0 <= i < |r.steps| :: StepAt(env, r, i)
  }

  ghost predicate StepAt(env: Env, r: Run, i: nat)
    requires |r.states| == |r.steps| + 1 && i < |r.steps|
  {
    Enabled(env, r.states[i], r.steps[i]) && r.states[i + 1] == Apply(env, r.states[i], r.steps[i])
  }

  lemma Extend(env: Env, r: Run, a: Step) returns (longer: Run)
    requires IsRun(env, r) && Enabled(env, Last(r), a)
    ensures IsRun(env, longer)
    ensures longer.steps == r.steps + [a] && longer.states == r.states + [Apply(env, Last(r), a)]
  {
    longer := Trace(r.states + [Apply(env, Last(r), a)], r.steps + [a]);
    forall i | 0 <= i < |longer.steps|
      ensures StepAt(env, longer, i)
    {
      assert i < |r.steps| ==> StepAt(env, r, i);
    }
  }

  lemma {:induction false} RunInv(env: Env, r: Run, i: nat)
    requires IsRun(env, r) && i < |r.states|
    ensures Inv(env, r.states[i])
  {
    if i > 0 {
      RunInv(env, r, i - 1);
      assert StepAt(env, r, i - 1);
      InvStep(env, r.states[i - 1], r.steps[i - 1]);
    }
  }

  // Whatever interleaves, a stored row decrypts under the key of its own tenant to tokens the provider
  // issued for exactly that tenant, provider and user; the expiry belongs to the stored access token.
  // Every answer given so far was such an access token, with the expiry of the same issue.
  lemma TokenProvenance(env: Env, r: Run, i: nat)
    requires IsRun(env, r) && i < |r.states|
    ensures var s := r.states[i];
            forall k | k in s.rows ::
              && DataKey(env, s.tenants, k.tenant).Ok?
              && (var token := Meaning(env.aead, DataKey(env, s.tenants, k.tenant).value, s.rows[k]);
                  token.Some? && Backed(s.issued, k, token.value))
    ensures var s := r.states[i];
            forall n | 0 <= n < |s.answers| :: AnswerOk(s.issued, s.answers[n])
  {
    RunInv(env, r, i);
    var s := r.states[i];
    forall k | k in s.rows
      ensures DataKey(env, s.tenants, k.tenant).Ok?
      ensures var token := Meaning(env.aead, DataKey(env, s.tenants, k.tenant).value, s.rows[k]);
              token.Some? && Backed(s.issued, k, token.value)
    {
      assert RowMeans(env, s.tenants, k, s.rows[k], s.view[k]);
    }
  }

  // Every encrypted column decrypts, from root key to data key to column, to exactly the plaintext last
  // written to it, and buildProvider succeeds exactly for a configured Google client.
  lemma EnvelopeHolds(env: Env, r: Run, i: nat)
    requires IsRun(env, r) && i < |r.states|
    ensures var s := r.states[i];
            && s.rows.Keys == s.view.Keys
            && forall k | k in s.rows :: k in s.view && RowMeans(env, s.tenants, k, s.rows[k], s.view[k])
    ensures var s := r.states[i];
            && s.configs.Keys == s.secrets.Keys
            && forall k | k in s.secrets ::
                 && k in s.configs
                 && BuildProvider(env, s.tenants, s.configs, k.tenant, k.provider)
                    == if k.provider == GOOGLE then Ok((s.configs[k].clientId, s.secrets[k]))
                       else Err("unsupported provider")
    ensures var s := r.states[i];
            forall t: Id, p: string | ConfigKey(t, p) !in s.secrets ::
              BuildProvider(env, s.tenants, s.configs, t, p) == Err("provider config not found")
  {
    RunInv(env, r, i);
    var s := r.states[i];
    forall k | k in s.secrets
      ensures k in s.configs && ConfigOk(env, s, k)
    {
      assert k in s.configs.Keys;
    }
  }

  // Every stored column is 28 bytes longer than the plaintext last written to it, so an empty refresh
  // column means that there is no refresh token and nothing else.
  lemma StoredLengths(env: Env, r: Run, i: nat)
    requires IsRun(env, r) && i < |r.states|
    ensures var s := r.states[i];
            && (forall t | t in s.tenants :: |s.tenants[t]| == 32 + 28)
            && (forall k | k in s.configs :: k in s.secrets && |s.configs[k].secret| == |s.secrets[k]| + 28)
            && (forall k | k in s.rows ::
                  && k in s.view && |s.rows[k].access| == |s.view[k].access| + 28
                  && |s.rows[k].refresh| == if s.view[k].refresh == [] then 0 else |s.view[k].refresh| + 28)
  {
    RunInv(env, r, i);
    var s := r.states[i];
    forall k | k in s.configs
      ensures k in s.secrets && |s.configs[k].secret| == |s.secrets[k]| + 28
    {
      assert ConfigOk(env, s, k);
    }
  }
}
