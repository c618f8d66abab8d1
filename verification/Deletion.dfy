/**
 Whether a token that is not stored, deleted or never stored, can come to be
 stored without its user authorizing again: exactly if a request that may
 write it is in flight.
 */
module Deletion {
  import opened Prelude
  import opened Crypto
  import opened Vault
  import opened VaultRuns
  import opened Rotation

  // A request that can still write the key: a callback that its user has authorized, a refresh that has
  // been answered, or one that has read a refresh token to show.
  ghost predicate MayWrite(s: State, o: Op, key: TokenKey) {
    WorksOn(s, o, key) && (o.Fetched? ==> o.plain.refresh != [])
  }

  ghost predicate Threatened(s: State, key: TokenKey) {
    exists op | op in s.ops :: MayWrite(s, s.ops[op], key)
  }

  // The run goes on, and its user does not authorize again. Others may.
  ghost predicate Continues(env: Env, r: Run, longer: Run, key: TokenKey) {
    && IsRun(env, longer) && r.states <= longer.states && r.steps <= longer.steps
    && forall m | |r.steps| <= m < |longer.steps| :: !Authorizes(longer.steps[m], key)
  }

  ghost predicate Authorizes(a: Step, key: TokenKey) {
    a.Exchange? && a.key == key
  }

  // A missing token can be stored again in some continuation of a run if and only if a request that may
  // write it is in flight.
  lemma DeletedStaysDeletedIff(env: Env, r: Run, key: TokenKey)
    requires IsRun(env, r) && key !in Last(r).rows
    ensures (exists longer :: Continues(env, r, longer, key) && key in Last(longer).rows) <==> Threatened(Last(r), key)
  {
    if Threatened(Last(r), key) {
      var op :| op in Last(r).ops && MayWrite(Last(r), Last(r).ops[op], key);
      var longer := Brings(env, r, op, key);
    } else if longer :| Continues(env, r, longer, key) && key in Last(longer).rows {
      StaysGone(env, longer, |r.steps|, |longer.steps|, key);
      assert false;
    }
  }

  // ---------- Without such a request ----------

  lemma {:induction false} StaysGone(env: Env, r: Run, i: nat, j: nat, key: TokenKey)
    requires IsRun(env, r) && i <= j < |r.states|
    requires key !in r.states[i].rows && !Threatened(r.states[i], key)
    requires forall m | i <= m < j :: !Authorizes(r.steps[m], key)
    ensures key !in r.states[j].rows && !Threatened(r.states[j], key)
  {
    if i < j {
      StaysGone(env, r, i, j - 1, key);
      GoneRunStep(env, r, j - 1, key);
    }
  }

  lemma GoneRunStep(env: Env, r: Run, m: nat, key: TokenKey)
    requires IsRun(env, r) && m < |r.steps| && !Authorizes(r.steps[m], key)
    requires key !in r.states[m].rows && !Threatened(r.states[m], key)
    ensures key !in r.states[m + 1].rows && !Threatened(r.states[m + 1], key)
  {
    RunInv(env, r, m);
    assert StepAt(env, r, m);
    GoneStep(env, r.states[m], r.steps[m], key);
  }

  lemma GoneStep(env: Env, s: State, a: Step, key: TokenKey)
    requires OpsOk(env, s) && LedgerOk(s.issued) && Enabled(env, s, a) && !Authorizes(a, key)
    requires key !in s.rows && !Threatened(s, key)
    ensures key !in Apply(env, s, a).rows && !Threatened(Apply(env, s, a), key)
  {
    var s' := Apply(env, s, a);
    if a.StoreCallback? || a.StoreRefresh? {
      assert !MayWrite(s, s.ops[a.op], key);
    }
    forall op | op in s'.ops
      ensures !MayWrite(s', s'.ops[op], key)
    {
      NoNewWriter(env, s, a, key, op);
    }
  }

  lemma NoNewWriter(env: Env, s: State, a: Step, key: TokenKey, op: Id)
    requires OpsOk(env, s) && LedgerOk(s.issued) && Enabled(env, s, a) && !Authorizes(a, key)
    requires key !in s.rows && !Threatened(s, key) && op in Apply(env, s, a).ops
    ensures !MayWrite(Apply(env, s, a), Apply(env, s, a).ops[op], key)
  {
    var s' := Apply(env, s, a);
    if MayWrite(s', s'.ops[op], key) {
      if op in s.ops && s'.ops[op] == s.ops[op] {
        WorksOnStep(env, s, a, key, op);
      } else {
        ChangedWorksOn(env, s, a, key, op);
        ChangedHadToken(env, s, a, op);
      }
      assert op in s.ops ==> MayWrite(s, s.ops[op], key);
    }
  }

  // Only a request with a refresh token gets an answer.
  lemma ChangedHadToken(env: Env, s: State, a: Step, op: Id)
    requires OpsOk(env, s) && Enabled(env, s, a) && op in s.ops && s.ops[op].Fetched?
    requires op in Apply(env, s, a).ops && Apply(env, s, a).ops[op] != s.ops[op]
    ensures s.ops[op].plain.refresh != []
  {
    assert OpOk(env, s, s.ops[op]);
  }

  // ---------- With one ----------

  // Tokens are issued only to users of a tenant that has configured Google.
  ghost predicate Configured(s: State, key: TokenKey) {
    key.provider == GOOGLE && ConfigKey(key.tenant, key.provider) in s.configs
  }

  lemma {:induction false} IssuesConfigured(env: Env, r: Run, i: nat)
    requires IsRun(env, r) && i < |r.states|
    ensures forall n | n in r.states[i].issued :: Configured(r.states[i], n.key)
  {
    if i > 0 {
      IssuesConfigured(env, r, i - 1);
      assert StepAt(env, r, i - 1);
      ConfiguredStep(env, r.states[i - 1], r.steps[i - 1]);
    }
  }

  lemma ConfiguredStep(env: Env, s: State, a: Step)
    requires Enabled(env, s, a) && forall n | n in s.issued :: Configured(s, n.key)
    ensures forall n | n in Apply(env, s, a).issued :: Configured(Apply(env, s, a), n.key)
  {
    forall k | k in s.configs
      ensures k in Apply(env, s, a).configs
    {
    }
  }

  lemma CanBuild(env: Env, s: State, key: TokenKey)
    requires ConfigsOk(env, s) && Configured(s, key)
    ensures BuildProvider(env, s.tenants, s.configs, key.tenant, key.provider).Ok?
    ensures DataKey(env, s.tenants, key.tenant).Ok?
  {
    assert ConfigOk(env, s, ConfigKey(key.tenant, key.provider));
  }

  // The user of a writing request was issued a token, so the provider can be built.
  lemma WriterConfigured(env: Env, r: Run, op: Id, key: TokenKey)
    requires IsRun(env, r) && op in Last(r).ops && MayWrite(Last(r), Last(r).ops[op], key)
    ensures BuildProvider(env, Last(r).tenants, Last(r).configs, key.tenant, key.provider).Ok?
    ensures DataKey(env, Last(r).tenants, key.tenant).Ok?
  {
    RunInv(env, r, |r.steps|);
    IssuesConfigured(env, r, |r.steps|);
    assert OpOk(env, Last(r), Last(r).ops[op]);
    CanBuild(env, Last(r), key);
  }

  lemma Brings(env: Env, r: Run, op: Id, key: TokenKey) returns (longer: Run)
    requires IsRun(env, r) && op in Last(r).ops && MayWrite(Last(r), Last(r).ops[op], key)
    ensures Continues(env, r, longer, key) && key in Last(longer).rows
  {
    match Last(r).ops[op]
    case Exchanged(_, _, _) =>
      longer := Extend(env, r, Identify(op, key.user));
      longer := CallbackStores(env, longer, op, key);
    case Identified(_, _) =>
      longer := CallbackStores(env, r, op, key);
    case Fetched(_, _, _) =>
      longer := ProviderAnswers(env, r, op, key);
      longer := RefreshStores(env, longer, op, key);
    case Refreshed(_, _, _, _) =>
      longer := RefreshStores(env, r, op, key);
  }

  const NONCE: Bytes := seq(NONCE_SIZE, _ => 0)

  lemma CallbackStores(env: Env, r: Run, op: Id, key: TokenKey) returns (longer: Run)
    requires IsRun(env, r) && op in Last(r).ops && Last(r).ops[op].Identified? && Last(r).ops[op].key == key
    ensures Continues(env, r, longer, key) && key in Last(longer).rows
  {
    WriterConfigured(env, r, op, key);
    longer := Extend(env, r, StoreCallback(op, NONCE, NONCE));
  }

  lemma RefreshStores(env: Env, r: Run, op: Id, key: TokenKey) returns (longer: Run)
    requires IsRun(env, r) && op in Last(r).ops && Last(r).ops[op].Refreshed? && Last(r).ops[op].key == key
    ensures Continues(env, r, longer, key) && key in Last(longer).rows
  {
    WriterConfigured(env, r, op, key);
    longer := Extend(env, r, StoreRefresh(op, NONCE, NONCE));
  }

  // The provider answers with an access token it has never issued.
  lemma ProviderAnswers(env: Env, r: Run, op: Id, key: TokenKey) returns (longer: Run)
    requires IsRun(env, r) && op in Last(r).ops && Last(r).ops[op].Fetched? && MayWrite(Last(r), Last(r).ops[op], key)
    ensures Continues(env, r, longer, key)
    ensures op in Last(longer).ops && Last(longer).ops[op].Refreshed? && Last(longer).ops[op].key == key
  {
    var access := FreshAccess(Last(r).issued);
    var token := Token(access, [], None);
    WriterConfigured(env, r, op, key);
    OpsAreOk(env, r);
    CanRefresh(env, Last(r), op, token);
    longer := Extend(env, r, Refresh(op, key, token));
  }

  lemma OpsAreOk(env: Env, r: Run)
    requires IsRun(env, r)
    ensures OpsOk(env, Last(r))
  {
    RunInv(env, r, |r.steps|);
  }

  // Longer than any access token issued.
  lemma {:induction false} FreshAccess(issued: seq<Issue>) returns (access: Bytes)
    ensures forall i | i in issued :: |i.token.access| < |access|
  {
    if issued == [] {
      access := [0];
    } else {
      var last := issued[|issued| - 1].token.access;
      access := FreshAccess(issued[..|issued| - 1]);
      if |access| <= |last| {
        access := last + [0];
      }
    }
  }

  // ---------- In one step ----------

  // The shortest way: a refresh that has been answered stores the row right after the delete.
  lemma InFlightRefreshUndoesDelete(env: Env, s: State, op: Id, n1: Bytes, n2: Bytes)
    requires KeysOk(env, s) && OpsOk(env, s) && op in s.ops && s.ops[op].Refreshed? && IsNonce(n1) && IsNonce(n2)
    ensures var key := s.ops[op].key;
            var t := Apply(env, s, Delete(key));
            && key !in t.rows && Enabled(env, t, StoreRefresh(op, n1, n2))
            && key in Apply(env, t, StoreRefresh(op, n1, n2)).rows
  {
    assert OpOk(env, s, s.ops[op]);
  }
}
