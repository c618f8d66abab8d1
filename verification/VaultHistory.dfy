/**
 What the store holds, read off the steps of a run: data keys as they were
 created, configs as they were set last, rows and answers as the requests
 brought them, the ledger as tokens were issued.
 */
module VaultHistory {
  import opened Prelude
  import opened Crypto
  import opened Vault
  import opened VaultRuns
  import opened Rotation

  // ---------- Time ----------

  // The clock stands where it was set last.
  lemma ClockIsLastTick(env: Env, r: Run, m: nat)
    requires IsRun(env, r) && m < |r.steps|
    ensures r.states[m + 1].clock == if r.steps[m].Tick? then r.steps[m].to else r.states[m].clock
  {
    assert StepAt(env, r, m);
    ClockStep(env, r.states[m], r.steps[m]);
  }

  lemma ClockStep(env: Env, s: State, a: Step)
    requires Enabled(env, s, a)
    ensures Apply(env, s, a).clock == if a.Tick? then a.to else s.clock
  {
  }

  // ---------- Data keys ----------

  lemma {:induction false} TenantsKept(env: Env, r: Run, m: nat, i: nat, tenant: Id)
    requires IsRun(env, r) && m <= i < |r.states| && tenant in r.states[m].tenants
    ensures tenant in r.states[i].tenants && r.states[i].tenants[tenant] == r.states[m].tenants[tenant]
  {
    if m < i {
      TenantsKept(env, r, m, i - 1, tenant);
      assert StepAt(env, r, i - 1);
      StepExtends(env, r.states[i - 1], r.steps[i - 1]);
    }
  }

  // The data key a tenant was created with is the one it has ever after.
  lemma TenantKeyIsCreated(env: Env, r: Run, m: nat, i: nat)
    requires IsRun(env, r) && m < i < |r.states| && r.steps[m].CreateTenant?
    ensures DataKey(env, r.states[i].tenants, r.steps[m].tenant) == Ok(r.steps[m].dataKey)
  {
    var a := r.steps[m];
    assert StepAt(env, r, m);
    FrameRoundTrip(env.aead, env.root, a.n1, a.dataKey);
    TenantsKept(env, r, m + 1, i, a.tenant);
  }

  // ---------- Configs ----------

  ghost predicate SetsConfig(a: Step, k: ConfigKey) {
    a.SetConfig? && a.config == k
  }

  lemma {:induction false} ConfigKept(env: Env, r: Run, m: nat, i: nat, k: ConfigKey)
    requires IsRun(env, r) && m <= i < |r.states| && k in r.states[m].configs && k in r.states[m].secrets
    requires forall n | m <= n < i :: !SetsConfig(r.steps[n], k)
    ensures k in r.states[i].configs && r.states[i].configs[k] == r.states[m].configs[k]
    ensures k in r.states[i].secrets && r.states[i].secrets[k] == r.states[m].secrets[k]
  {
    if m < i {
      ConfigKept(env, r, m, i - 1, k);
      assert StepAt(env, r, i - 1) && !SetsConfig(r.steps[i - 1], k);
      ConfigStep(env, r.states[i - 1], r.steps[i - 1], k);
    }
  }

  lemma ConfigStep(env: Env, s: State, a: Step, k: ConfigKey)
    requires Enabled(env, s, a) && !SetsConfig(a, k) && k in s.configs && k in s.secrets
    ensures var s' := Apply(env, s, a);
            k in s'.configs && s'.configs[k] == s.configs[k] && k in s'.secrets && s'.secrets[k] == s.secrets[k]
  {
  }

  // A provider is built with the client id and the secret that were set last.
  lemma ConfigIsLastSet(env: Env, r: Run, m: nat, i: nat, k: ConfigKey)
    requires IsRun(env, r) && m < i < |r.states| && SetsConfig(r.steps[m], k)
    requires forall n | m < n < i :: !SetsConfig(r.steps[n], k)
    ensures var s := r.states[i];
            BuildProvider(env, s.tenants, s.configs, k.tenant, k.provider)
            == if k.provider == "google" then Ok((r.steps[m].clientId, r.steps[m].secret))
               else Err("unsupported provider")
  {
    assert StepAt(env, r, m);
    ConfigKept(env, r, m + 1, i, k);
    EnvelopeHolds(env, r, i);
  }

  // ---------- The ledger ----------

  ghost predicate Issues(a: Step, i: Issue) {
    || (a.Exchange? && a.key == i.key && a.token == i.token)
    || (a.Refresh? && a.owner == i.key && a.token == i.token)
  }

  // The ledger holds exactly the tokens of the exchanges and refreshes so far.
  lemma {:induction false} LedgerIsIssues(env: Env, r: Run, j: nat, i: Issue)
    requires IsRun(env, r) && j < |r.states|
    ensures i in r.states[j].issued <==> exists m | 0 <= m < j :: Issues(r.steps[m], i)
  {
    if j > 0 {
      LedgerIsIssues(env, r, j - 1, i);
      assert StepAt(env, r, j - 1);
      LedgerStepIssues(env, r.states[j - 1], r.steps[j - 1], i);
    }
  }

  lemma LedgerStepIssues(env: Env, s: State, a: Step, i: Issue)
    requires Enabled(env, s, a)
    ensures i in Apply(env, s, a).issued <==> i in s.issued || Issues(a, i)
  {
  }

  // ---------- Rows ----------

  // The stored row of a key, column by column.
  ghost predicate Holds(env: Env, s: State, key: TokenKey, access: Bytes, refresh: Bytes, expiry: Option<Time>) {
    && key in s.rows && DataKey(env, s.tenants, key.tenant).Ok?
    && (var dataKey, row := DataKey(env, s.tenants, key.tenant).value, s.rows[key];
        && Decrypt(env.aead, dataKey, row.access) == Ok(access)
        && (if refresh == [] then |row.refresh| == 0 else Decrypt(env.aead, dataKey, row.refresh) == Ok(refresh))
        && row.expiresAt == expiry)
  }

  ghost predicate Unwritten(r: Run, i: nat, j: nat, key: TokenKey)
    requires j <= |r.steps| < |r.states|
  {
    forall k | i <= k < j :: !WritesKey(r.states[k], r.steps[k], key)
  }

  lemma {:induction false} RowKept(env: Env, r: Run, i: nat, j: nat, key: TokenKey)
    requires IsRun(env, r) && i <= j < |r.states| && Unwritten(r, i, j, key) && key in r.states[i].view
    ensures key in r.states[j].view && r.states[j].view[key] == r.states[i].view[key]
  {
    if i < j {
      RowKept(env, r, i, j - 1, key);
      assert StepAt(env, r, j - 1) && !WritesKey(r.states[j - 1], r.steps[j - 1], key);
      OthersKeepKey(env, r.states[j - 1], r.steps[j - 1], key);
    }
  }

  lemma ViewHolds(env: Env, r: Run, j: nat, key: TokenKey)
    requires IsRun(env, r) && j < |r.states| && key in r.states[j].view
    ensures var s := r.states[j];
            Holds(env, s, key, s.view[key].access, s.view[key].refresh, s.view[key].expiry)
  {
    RunInv(env, r, j);
    var s := r.states[j];
    assert key in s.rows.Keys && RowMeans(env, s.tenants, key, s.rows[key], s.view[key]);
  }

  // From a callback on, until somebody else writes the key, its row holds the token the code was exchanged for.
  lemma CallbackIsStored(env: Env, r: Run, i: nat, m: nat, j: nat, n: nat, op: Id, key: TokenKey)
    requires IsRun(env, r) && CallbackCycle(r, i, m, j, op, key) && j < n < |r.states| && Unwritten(r, j + 1, n, key)
    ensures var token := r.steps[i].token;
            Holds(env, r.states[n], key, token.access, token.refresh, token.expiry)
  {
    CallbackOp(env, r, i, m, j, op, key);
    assert StepAt(env, r, j);
    RowKept(env, r, j + 1, n, key);
    ViewHolds(env, r, n, key);
  }

  // From a refresh on, it holds the access token and the expiry of the provider's answer, with the refresh
  // token of the answer, or the one in the row the request has read if none was sent.
  lemma RefreshIsStored(env: Env, r: Run, i: nat, m: nat, j: nat, n: nat, op: Id, key: TokenKey)
    requires IsRun(env, r) && RefreshCycle(r, i, m, j, op, key) && j < n < |r.states| && Unwritten(r, j + 1, n, key)
    ensures var token := r.steps[m].token;
            var refresh := if token.refresh == [] then StoredRefresh(r.states[i], key) else token.refresh;
            Holds(env, r.states[n], key, token.access, refresh, token.expiry)
  {
    CycleOp(env, r, i, m, j, op, key);
    assert StepAt(env, r, j);
    RowKept(env, r, j + 1, n, key);
    ViewHolds(env, r, n, key);
  }

  // ---------- Answers ----------

  // A read answers at once only with what the row holds, and only if that has no expiry or at least 30
  // seconds left.
  lemma ReadIsAnswered(env: Env, r: Run, m: nat)
    requires IsRun(env, r) && m < |r.steps| && r.steps[m].ReadFresh?
    ensures var s, key := r.states[m], r.steps[m].key;
            && key in s.view
            && (var token := s.view[key];
                && Holds(env, s, key, token.access, token.refresh, token.expiry)
                && (token.expiry.None? || token.expiry.value - s.clock >= 30_000_000_000)
                && r.states[m + 1].answers == s.answers + [Answer(key, token.access, token.expiry)])
  {
    var s, key := r.states[m], r.steps[m].key;
    assert StepAt(env, r, m);
    ReadableRow(env, r, m, key);
    ViewHolds(env, r, m, key);
  }

  lemma ReadableRow(env: Env, r: Run, m: nat, key: TokenKey)
    requires IsRun(env, r) && m < |r.states| && key in r.states[m].rows
    ensures key in r.states[m].view
  {
    RunInv(env, r, m);
  }

  // A refresh is answered with the access token and the expiry the provider has just sent, and is only
  // tried for a row with less than 30 seconds left.
  lemma RefreshIsAnswered(env: Env, r: Run, i: nat, m: nat, j: nat, op: Id, key: TokenKey)
    requires IsRun(env, r) && RefreshCycle(r, i, m, j, op, key)
    ensures var s, token := r.states[i], r.steps[m].token;
            && key in s.rows && s.rows[key].expiresAt.Some? && s.rows[key].expiresAt.value - s.clock < 30_000_000_000
            && r.states[j + 1].answers == r.states[j].answers + [Answer(key, token.access, token.expiry)]
  {
    CycleOp(env, r, i, m, j, op, key);
    ReadWasExpiring(env, r, i);
    StoreIsAnswered(env, r, j);
  }

  lemma ReadWasExpiring(env: Env, r: Run, i: nat)
    requires IsRun(env, r) && i < |r.steps| && r.steps[i].ReadExpiring?
    ensures var s, key := r.states[i], r.steps[i].key;
            key in s.rows && s.rows[key].expiresAt.Some? && s.rows[key].expiresAt.value - s.clock < 30_000_000_000
  {
    assert StepAt(env, r, i);
  }

  lemma StoreIsAnswered(env: Env, r: Run, j: nat)
    requires IsRun(env, r) && j < |r.steps| && r.steps[j].StoreRefresh?
    ensures r.steps[j].op in r.states[j].ops && r.states[j].ops[r.steps[j].op].Refreshed?
    ensures var o := r.states[j].ops[r.steps[j].op];
            r.states[j + 1].answers == r.states[j].answers + [Answer(o.key, o.token.access, o.token.expiry)]
  {
    assert StepAt(env, r, j);
    RunInv(env, r, j);
    StoreRefreshWrites(env, r.states[j], r.steps[j].op, r.steps[j].n1, r.steps[j].n2);
  }

  // No other step answers anything.
  lemma OthersAnswerNothing(env: Env, r: Run, m: nat)
    requires IsRun(env, r) && m < |r.steps| && !r.steps[m].ReadFresh? && !r.steps[m].StoreRefresh?
    ensures r.states[m + 1].answers == r.states[m].answers
  {
    assert StepAt(env, r, m);
    SilentStep(env, r.states[m], r.steps[m]);
  }

  lemma SilentStep(env: Env, s: State, a: Step)
    requires Enabled(env, s, a) && !a.ReadFresh? && !a.StoreRefresh?
    ensures Apply(env, s, a).answers == s.answers
  {
  }
}
