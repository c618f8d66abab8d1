/**
 Rotation of refresh tokens over every interleaving: which refresh token a row
 holds compared with the one the provider issued last, as section 6 of RFC 6749
 asks for. Exact conditions, and runs in which the code misses them.
 */
module Rotation {
  import opened Prelude
  import opened Crypto
  import opened Vault
  import opened VaultRuns

  // ---------- The last refresh token issued ----------

  ghost function StoredRefresh(s: State, key: TokenKey): Bytes {
    if key in s.view then s.view[key].refresh else []
  }

  // The provider issues a refresh token for the key. Handing back the one it was shown, or sending none, is
  // no issue.
  ghost predicate IssuesTo(s: State, a: Step, key: TokenKey) {
    match a
    case Exchange(_, k, token) => k == key && token.refresh != []
    case Refresh(op, owner, token) =>
      && owner == key && token.refresh != []
      && op in s.ops && s.ops[op].Fetched? && token.refresh != s.ops[op].plain.refresh
    case _ => false
  }

  ghost function IssuedBy(a: Step): Bytes {
    match a
    case Exchange(_, _, token) => token.refresh
    case Refresh(_, _, token) => token.refresh
    case _ => []
  }

  ghost predicate IssuesAt(r: Run, k: nat, key: TokenKey)
    requires k < |r.steps| < |r.states|
  {
    IssuesTo(r.states[k], r.steps[k], key)
  }

  ghost function LastAfter(s: State, a: Step, key: TokenKey, last: Bytes): Bytes {
    if IssuesTo(s, a, key) then IssuedBy(a) else last
  }

  // The refresh token issued last for a key, stored or not; none if there never was one.
  ghost function LastIssued(r: Run, j: nat, key: TokenKey): Bytes
    requires j <= |r.steps| < |r.states|
  {
    if j == 0 then [] else LastAfter(r.states[j - 1], r.steps[j - 1], key, LastIssued(r, j - 1, key))
  }

  // A new refresh token replaces the old one, so the one to hold is the last one issued.
  ghost predicate Current(r: Run, j: nat, key: TokenKey)
    requires j <= |r.steps| < |r.states|
  {
    StoredRefresh(r.states[j], key) == LastIssued(r, j, key)
  }

  lemma {:induction false} LastIssuedFrame(r: Run, longer: Run, j: nat, key: TokenKey)
    requires j <= |r.steps| < |r.states| && r.states <= longer.states && r.steps <= longer.steps
    requires |longer.steps| < |longer.states|
    ensures LastIssued(longer, j, key) == LastIssued(r, j, key)
  {
    if j > 0 {
      LastIssuedFrame(r, longer, j - 1, key);
    }
  }

  // From step i on another refresh token than x has been issued, and none after it.
  ghost predicate Superseded(r: Run, i: nat, j: nat, key: TokenKey, x: Bytes)
    requires j <= |r.steps| < |r.states|
  {
    exists k | i <= k < j ::
      IssuesAt(r, k, key) && IssuedBy(r.steps[k]) != x && forall n | k < n < j :: !IssuesAt(r, n, key)
  }

  lemma {:induction false} StillLastIff(r: Run, i: nat, j: nat, key: TokenKey)
    requires i <= j <= |r.steps| < |r.states|
    ensures LastIssued(r, j, key) == LastIssued(r, i, key) <==> !Superseded(r, i, j, key, LastIssued(r, i, key))
  {
    if i < j {
      var x := LastIssued(r, i, key);
      StillLastIff(r, i, j - 1, key);
      if IssuesAt(r, j - 1, key) {
        assert IssuedBy(r.steps[j - 1]) != x ==> Superseded(r, i, j, key, x);
      } else if Superseded(r, i, j - 1, key, x) {
        var k :| i <= k < j - 1 && IssuesAt(r, k, key) && IssuedBy(r.steps[k]) != x
                 && forall n | k < n < j - 1 :: !IssuesAt(r, n, key);
        assert forall n | k < n < j :: !IssuesAt(r, n, key);
      }
    }
  }

  lemma {:induction false} NoneEverIssuedIff(r: Run, j: nat, key: TokenKey)
    requires j <= |r.steps| < |r.states|
    ensures LastIssued(r, j, key) == [] <==> forall k | 0 <= k < j :: !IssuesAt(r, k, key)
  {
    if j > 0 {
      NoneEverIssuedIff(r, j - 1, key);
      assert IssuesAt(r, j - 1, key) ==> LastIssued(r, j, key) == IssuedBy(r.steps[j - 1]) != [];
    }
  }

  lemma LedgerStepGrows(env: Env, s: State, a: Step)
    requires Enabled(env, s, a)
    ensures s.issued <= Apply(env, s, a).issued
  {
  }

  lemma {:induction false} LedgerGrows(env: Env, r: Run, i: nat, j: nat)
    requires IsRun(env, r) && i <= j < |r.states|
    ensures r.states[i].issued <= r.states[j].issued
  {
    if i < j {
      LedgerGrows(env, r, i, j - 1);
      assert StepAt(env, r, j - 1);
      LedgerStepGrows(env, r.states[j - 1], r.steps[j - 1]);
    }
  }

  // ---------- One request ----------

  // A request for a token: it reads the row at step i, the provider answers at step m, it stores at step j.
  ghost predicate RefreshCycle(r: Run, i: nat, m: nat, j: nat, op: Id, key: TokenKey)
    requires |r.steps| < |r.states|
  {
    && i < m < j < |r.steps|
    && r.steps[i] == ReadExpiring(op, key)
    && r.steps[m].Refresh? && r.steps[m].op == op
    && r.steps[j].StoreRefresh? && r.steps[j].op == op
    && InFlightThroughout(r, i + 1, j, op)
  }

  ghost predicate InFlightThroughout(r: Run, i: nat, j: nat, op: Id)
    requires j < |r.states|
  {
    forall k | i <= k <= j :: op in r.states[k].ops
  }

  lemma OpStep(env: Env, s: State, a: Step, op: Id)
    requires Enabled(env, s, a) && op in s.ops && op in Apply(env, s, a).ops
    ensures var o, o' := s.ops[op], Apply(env, s, a).ops[op];
            && (o.Refreshed? || o.Identified? || o'.Fetched? || o'.Exchanged? ==> o' == o)
  {
  }

  lemma {:induction false} OpUntil(env: Env, r: Run, i: nat, j: nat, op: Id)
    requires IsRun(env, r) && i <= j < |r.states| && InFlightThroughout(r, i, j, op)
    requires r.states[j].ops[op].Fetched? || r.states[j].ops[op].Exchanged?
    ensures r.states[i].ops[op] == r.states[j].ops[op]
  {
    if i < j {
      assert StepAt(env, r, j - 1) && op in r.states[j - 1].ops;
      OpStep(env, r.states[j - 1], r.steps[j - 1], op);
      OpUntil(env, r, i, j - 1, op);
    }
  }

  lemma {:induction false} OpSince(env: Env, r: Run, i: nat, j: nat, op: Id)
    requires IsRun(env, r) && i <= j < |r.states| && InFlightThroughout(r, i, j, op)
    requires r.states[i].ops[op].Refreshed? || r.states[i].ops[op].Identified?
    ensures r.states[j].ops[op] == r.states[i].ops[op]
  {
    if i < j {
      OpSince(env, r, i, j - 1, op);
      assert StepAt(env, r, j - 1);
      OpStep(env, r.states[j - 1], r.steps[j - 1], op);
    }
  }

  lemma ReadAt(env: Env, r: Run, i: nat)
    requires IsRun(env, r) && i < |r.steps| && r.steps[i].ReadExpiring?
    ensures var s, op, key := r.states[i], r.steps[i].op, r.steps[i].key;
            && key in s.rows && key in s.view
            && op in r.states[i + 1].ops && r.states[i + 1].ops[op] == Fetched(key, s.rows[key], s.view[key])
  {
    RunInv(env, r, i);
    assert StepAt(env, r, i);
  }

  lemma AnsweredAt(env: Env, r: Run, m: nat)
    requires IsRun(env, r) && m < |r.steps| && r.steps[m].Refresh?
    ensures var s, a := r.states[m], r.steps[m];
            && a.op in s.ops && s.ops[a.op].Fetched?
            && (var o := s.ops[a.op];
                && a.owner == o.key && o.plain.refresh != []
                && a.op in r.states[m + 1].ops
                && r.states[m + 1].ops[a.op] == Refreshed(o.key, o.row, o.plain, a.token))
  {
    RunInv(env, r, m);
    assert StepAt(env, r, m);
    RefreshOwner(env, r.states[m], r.steps[m]);
    assert OpOk(env, r.states[m], r.states[m].ops[r.steps[m].op]);
  }

  lemma CycleOp(env: Env, r: Run, i: nat, m: nat, j: nat, op: Id, key: TokenKey)
    requires IsRun(env, r) && RefreshCycle(r, i, m, j, op, key)
    ensures var s, token := r.states[i], r.steps[m].token;
            && key in s.rows && key in s.view && s.view[key].refresh != []
            && r.steps[m].owner == key
            && (IssuesAt(r, m, key) <==> token.refresh != [] && token.refresh != s.view[key].refresh)
            && op in r.states[j].ops && r.states[j].ops[op] == Refreshed(key, s.rows[key], s.view[key], token)
  {
    ReadAt(env, r, i);
    AnsweredAt(env, r, m);
    OpUntil(env, r, i + 1, m, op);
    OpSince(env, r, m + 1, j, op);
  }

  // Storing a refresh leaves the last refresh token issued, given that the row read held it, exactly if
  // what is stored has not been superseded in the meantime: since the request's own rotation, if the
  // provider sent it a new refresh token, and otherwise since it read the row.
  lemma RefreshLeavesLastIssuedIff(env: Env, r: Run, i: nat, m: nat, j: nat, op: Id, key: TokenKey)
    requires IsRun(env, r) && RefreshCycle(r, i, m, j, op, key) && Current(r, i, key)
    ensures var read, sent := StoredRefresh(r.states[i], key), r.steps[m].token.refresh;
            Current(r, j + 1, key) <==>
              if sent != [] && sent != read then !Superseded(r, m + 1, j, key, sent)
              else !Superseded(r, i, j, key, read)
  {
    CycleOp(env, r, i, m, j, op, key);
    StoredByRefresh(env, r, j);
    StillLastIff(r, i, j, key);
    StillLastIff(r, m + 1, j, key);
  }

  lemma StoredByRefresh(env: Env, r: Run, j: nat)
    requires IsRun(env, r) && j < |r.steps| && r.steps[j].StoreRefresh?
    ensures r.steps[j].op in r.states[j].ops && r.states[j].ops[r.steps[j].op].Refreshed?
    ensures var o := r.states[j].ops[r.steps[j].op];
            StoredRefresh(r.states[j + 1], o.key) == Merged(o.plain, o.token).refresh
  {
    assert StepAt(env, r, j);
  }

  // A callback: the code is exchanged at step i, the user identified at step m, the token stored at step j.
  ghost predicate CallbackCycle(r: Run, i: nat, m: nat, j: nat, op: Id, key: TokenKey)
    requires |r.steps| < |r.states|
  {
    && i < m < j < |r.steps|
    && r.steps[i].Exchange? && r.steps[i].op == op && r.steps[i].key == key
    && r.steps[m].Identify? && r.steps[m].op == op
    && r.steps[j].StoreCallback? && r.steps[j].op == op
    && InFlightThroughout(r, i + 1, j, op)
  }

  // A callback leaves the last refresh token issued exactly if its own has not been superseded; one that
  // comes without a refresh token, only for a user who never was issued any.
  lemma CallbackLeavesLastIssuedIff(env: Env, r: Run, i: nat, m: nat, j: nat, op: Id, key: TokenKey)
    requires IsRun(env, r) && CallbackCycle(r, i, m, j, op, key)
    ensures var sent := r.steps[i].token.refresh;
            Current(r, j + 1, key) <==>
              if sent != [] then !Superseded(r, i + 1, j, key, sent) else forall k | 0 <= k < j :: !IssuesAt(r, k, key)
  {
    CallbackOp(env, r, i, m, j, op, key);
    StoredByCallback(env, r, j);
    StillLastIff(r, i + 1, j, key);
    NoneEverIssuedIff(r, j, key);
  }

  lemma StoredByCallback(env: Env, r: Run, j: nat)
    requires IsRun(env, r) && j < |r.steps| && r.steps[j].StoreCallback?
    ensures r.steps[j].op in r.states[j].ops && r.states[j].ops[r.steps[j].op].Identified?
    ensures var o := r.states[j].ops[r.steps[j].op];
            StoredRefresh(r.states[j + 1], o.key) == o.token.refresh
  {
    assert StepAt(env, r, j);
  }

  lemma CallbackOp(env: Env, r: Run, i: nat, m: nat, j: nat, op: Id, key: TokenKey)
    requires IsRun(env, r) && CallbackCycle(r, i, m, j, op, key)
    ensures op in r.states[j].ops && r.states[j].ops[op] == Identified(key, r.steps[i].token)
  {
    ExchangedAt(env, r, i);
    IdentifiedAt(env, r, m);
    OpUntil(env, r, i + 1, m, op);
    LedgerGrows(env, r, i + 1, m);
    RunInv(env, r, m);
    var issue := Issue(key, r.steps[i].token);
    assert r.states[m].issued[|r.states[i].issued|] == issue;
    OpSince(env, r, m + 1, j, op);
  }

  lemma ExchangedAt(env: Env, r: Run, i: nat)
    requires IsRun(env, r) && i < |r.steps| && r.steps[i].Exchange?
    ensures var a, s' := r.steps[i], r.states[i + 1];
            && a.op in s'.ops && s'.ops[a.op] == Exchanged(a.key.tenant, a.key.provider, a.token)
            && s'.issued == r.states[i].issued + [Issue(a.key, a.token)]
  {
    assert StepAt(env, r, i);
  }

  lemma IdentifiedAt(env: Env, r: Run, m: nat)
    requires IsRun(env, r) && m < |r.steps| && r.steps[m].Identify?
    ensures var s, a := r.states[m], r.steps[m];
            && a.op in s.ops && s.ops[a.op].Exchanged?
            && (var o := s.ops[a.op];
                var key := TokenKey(o.tenant, o.provider, a.user);
                && Issue(key, o.token) in s.issued
                && a.op in r.states[m + 1].ops && r.states[m + 1].ops[a.op] == Identified(key, o.token))
  {
    RunInv(env, r, m);
    assert StepAt(env, r, m);
    IdentifiedOwner(env, r.states[m], r.steps[m]);
  }

  // ---------- Requests that do not overlap ----------

  // A request that writes the key if it gets that far.
  ghost predicate WorksOn(s: State, o: Op, key: TokenKey) {
    match o
    case Exchanged(tenant, provider, token) =>
      tenant == key.tenant && provider == key.provider && Issue(key, token) in s.issued
    case Identified(k, _) => k == key
    case Fetched(k, _, _) => k == key
    case Refreshed(k, _, _, _) => k == key
  }

  ghost predicate Busy(s: State, key: TokenKey) {
    exists op | op in s.ops :: WorksOn(s, s.ops[op], key)
  }

  // Nobody authorizes again, nobody deletes, and no request starts while another one is in flight.
  ghost predicate Serial(s: State, a: Step, key: TokenKey) {
    match a
    case Exchange(_, k, _) => k != key
    case Delete(k) => k != key
    case ReadExpiring(_, k) => k == key ==> !Busy(s, key)
    case _ => true
  }

  ghost predicate SerialBetween(r: Run, i: nat, j: nat, key: TokenKey)
    requires j <= |r.steps| < |r.states|
  {
    forall m | i <= m < j :: Serial(r.states[m], r.steps[m], key)
  }

  // The provider has sent the request a new refresh token, which is not stored yet.
  ghost predicate HoldsRotation(o: Op, key: TokenKey) {
    o.Refreshed? && o.key == key && o.token.refresh != [] && o.token.refresh != o.plain.refresh
  }

  ghost predicate Rotating(s: State, key: TokenKey) {
    exists op | op in s.ops :: HoldsRotation(s.ops[op], key)
  }

  ghost predicate AbandonsRotation(s: State, a: Step, key: TokenKey) {
    a.Abandon? && a.op in s.ops && HoldsRotation(s.ops[a.op], key)
  }

  ghost predicate StoresRotation(s: State, a: Step, key: TokenKey) {
    a.StoreRefresh? && a.op in s.ops && HoldsRotation(s.ops[a.op], key)
  }

  // Some request failed or died between receiving a new refresh token and storing it, and no later
  // request has stored one.
  ghost predicate RotationLost(r: Run, i: nat, j: nat, key: TokenKey)
    requires j <= |r.steps| < |r.states|
  {
    exists m | i <= m < j ::
      && AbandonsRotation(r.states[m], r.steps[m], key)
      && forall n | m < n < j :: !StoresRotation(r.states[n], r.steps[n], key)
  }

  lemma RotationLostStep(r: Run, i: nat, j: nat, key: TokenKey)
    requires i <= j < |r.steps| < |r.states|
    ensures RotationLost(r, i, j + 1, key) <==>
              || AbandonsRotation(r.states[j], r.steps[j], key)
              || (RotationLost(r, i, j, key) && !StoresRotation(r.states[j], r.steps[j], key))
  {
    if RotationLost(r, i, j + 1, key) && !AbandonsRotation(r.states[j], r.steps[j], key) {
      var m :| i <= m < j + 1 && AbandonsRotation(r.states[m], r.steps[m], key)
               && forall n | m < n < j + 1 :: !StoresRotation(r.states[n], r.steps[n], key);
      assert m < j;
    }
  }

  // The one request at work on the key has read the row that is still stored.
  ghost predicate Orderly(s: State, key: TokenKey) {
    && key in s.rows && key in s.view && s.view[key].refresh != []
    && (forall op | op in s.ops && WorksOn(s, s.ops[op], key) :: ReadsStored(s, s.ops[op], key))
    && (forall p, q | p in s.ops && q in s.ops && WorksOn(s, s.ops[p], key) && WorksOn(s, s.ops[q], key) :: p == q)
  }

  ghost predicate ReadsStored(s: State, o: Op, key: TokenKey)
    requires key in s.rows && key in s.view
  {
    (o.Fetched? || o.Refreshed?) && o.row == s.rows[key] && o.plain == s.view[key]
  }

  // No issue turns a request of another user into one for this key.
  lemma WorksOnStep(env: Env, s: State, a: Step, key: TokenKey, op: Id)
    requires OpsOk(env, s) && LedgerOk(s.issued) && Enabled(env, s, a)
    requires op in s.ops && op in Apply(env, s, a).ops && Apply(env, s, a).ops[op] == s.ops[op]
    ensures WorksOn(Apply(env, s, a), s.ops[op], key) == WorksOn(s, s.ops[op], key)
  {
    assert OpOk(env, s, s.ops[op]);
  }

  // A request that changes in a step works for the same key afterwards.
  lemma ChangedWorksOn(env: Env, s: State, a: Step, key: TokenKey, op: Id)
    requires OpsOk(env, s) && LedgerOk(s.issued) && Enabled(env, s, a) && (a.Exchange? ==> a.key != key)
    requires op in Apply(env, s, a).ops && WorksOn(Apply(env, s, a), Apply(env, s, a).ops[op], key)
    requires op !in s.ops || Apply(env, s, a).ops[op] != s.ops[op]
    ensures a == ReadExpiring(op, key) || (op in s.ops && WorksOn(s, s.ops[op], key))
    ensures op in s.ops ==> (a.Refresh? && a.op == op) || (s.ops[op].Exchanged? && a.Identify?)
  {
    match a
    case Identify(_, _) => IdentifiedOwner(env, s, a);
    case Exchange(_, k, token) =>
      assert Issue(k, token) in Apply(env, s, a).issued;
      LedgerStep(env, s, a);
    case _ =>
  }

  ghost predicate WritesKey(s: State, a: Step, key: TokenKey) {
    match a
    case StoreCallback(op, _, _) => op in s.ops && s.ops[op].Identified? && s.ops[op].key == key
    case StoreRefresh(op, _, _) => op in s.ops && s.ops[op].Refreshed? && s.ops[op].key == key
    case Delete(k) => k == key
    case _ => false
  }

  lemma OthersKeepKey(env: Env, s: State, a: Step, key: TokenKey)
    requires Enabled(env, s, a) && !WritesKey(s, a, key)
    ensures var s' := Apply(env, s, a);
            && (key in s'.rows <==> key in s.rows) && (key in s.rows ==> s'.rows[key] == s.rows[key])
            && (key in s'.view <==> key in s.view) && (key in s.view ==> s'.view[key] == s.view[key])
  {
  }

  // The only write is that of the one request at work, which keeps or replaces the refresh token.
  lemma OrderlyWrite(env: Env, s: State, a: Step, key: TokenKey)
    requires Enabled(env, s, a) && Orderly(s, key) && Serial(s, a, key) && WritesKey(s, a, key)
    ensures a.StoreRefresh?
    ensures var s', o := Apply(env, s, a), s.ops[a.op];
            && s'.ops == s.ops - {a.op}
            && key in s'.rows && key in s'.view
            && s'.view[key].refresh == (if o.token.refresh != [] then o.token.refresh else s.view[key].refresh)
            && forall op | op in s'.ops :: !WorksOn(s', s'.ops[op], key)
  {
    assert WorksOn(s, s.ops[a.op], key);
    assert ReadsStored(s, s.ops[a.op], key);
    forall op | op in Apply(env, s, a).ops
      ensures !WorksOn(s, s.ops[op], key)
    {
      assert op in s.ops && op != a.op;
    }
  }

  lemma OrderlyStep(env: Env, s: State, a: Step, key: TokenKey)
    requires OpsOk(env, s) && LedgerOk(s.issued) && Enabled(env, s, a) && Orderly(s, key) && Serial(s, a, key)
    ensures Orderly(Apply(env, s, a), key)
  {
    if WritesKey(s, a, key) {
      OrderlyWrite(env, s, a, key);
    } else {
      var s' := Apply(env, s, a);
      OthersKeepKey(env, s, a, key);
      forall op | op in s'.ops && WorksOn(s', s'.ops[op], key)
        ensures WorkedOn(s, a, key, op) && ReadsStored(s', s'.ops[op], key)
      {
        OrderlyOp(env, s, a, key, op);
      }
      StillOrderly(s, a, s', key);
    }
  }

  lemma StillOrderly(s: State, a: Step, s': State, key: TokenKey)
    requires Orderly(s, key) && key in s'.rows && key in s'.view && s'.view[key].refresh != []
    requires forall op | op in s'.ops && WorksOn(s', s'.ops[op], key) ::
               WorkedOn(s, a, key, op) && ReadsStored(s', s'.ops[op], key)
    ensures Orderly(s', key)
  {
  }

  // The request was at work before the step, or starts now and is alone.
  ghost predicate WorkedOn(s: State, a: Step, key: TokenKey, op: Id) {
    || (a == ReadExpiring(op, key) && !Busy(s, key))
    || (op in s.ops && WorksOn(s, s.ops[op], key))
  }

  lemma OrderlyOp(env: Env, s: State, a: Step, key: TokenKey, op: Id)
    requires OpsOk(env, s) && LedgerOk(s.issued) && Enabled(env, s, a)
    requires Orderly(s, key) && Serial(s, a, key) && !WritesKey(s, a, key)
    requires op in Apply(env, s, a).ops && WorksOn(Apply(env, s, a), Apply(env, s, a).ops[op], key)
    ensures WorkedOn(s, a, key, op)
    ensures var s' := Apply(env, s, a);
            key in s'.rows && key in s'.view && ReadsStored(s', s'.ops[op], key)
  {
    var s' := Apply(env, s, a);
    OthersKeepKey(env, s, a, key);
    if op in s.ops && s'.ops[op] == s.ops[op] {
      WorksOnStep(env, s, a, key, op);
    } else {
      ChangedWorksOn(env, s, a, key, op);
    }
    assert op in s.ops ==> ReadsStored(s, s.ops[op], key);
  }

  // What is stored while requests do not overlap, `last` being the refresh token issued last and `lost`
  // telling whether a rotation has been lost: the last one, unless the request at work holds it or it is lost.
  ghost predicate Held(s: State, key: TokenKey, last: Bytes, lost: bool) {
    && (StoredRefresh(s, key) == last <==> !lost && !Rotating(s, key))
    && (forall op | op in s.ops && HoldsRotation(s.ops[op], key) :: s.ops[op].token.refresh == last)
  }

  ghost predicate LostAfter(s: State, a: Step, key: TokenKey, lost: bool) {
    AbandonsRotation(s, a, key) || (lost && !StoresRotation(s, a, key))
  }

  lemma OneRotation(s: State, op: Id, key: TokenKey)
    requires Orderly(s, key) && op in s.ops && WorksOn(s, s.ops[op], key)
    ensures forall p | p in s.ops && p != op :: !HoldsRotation(s.ops[p], key)
  {
    forall p | p in s.ops && p != op
      ensures !HoldsRotation(s.ops[p], key)
    {
      assert !WorksOn(s, s.ops[p], key);
    }
  }

  // The provider answers the request at work with a new refresh token: it is not the one stored.
  lemma RotationHeld(s: State, s': State, op: Id, token: Token, key: TokenKey, lost: bool)
    requires Orderly(s, key) && op in s.ops && s.ops[op].Fetched? && s.ops[op].key == key
    requires token.refresh != [] && token.refresh != s.ops[op].plain.refresh && s'.view == s.view
    requires s'.ops == s.ops[op := Refreshed(key, s.ops[op].row, s.ops[op].plain, token)]
    ensures Held(s', key, token.refresh, lost)
  {
    assert WorksOn(s, s.ops[op], key);
    assert ReadsStored(s, s.ops[op], key);
    OneRotation(s, op, key);
    assert HoldsRotation(s'.ops[op], key);
  }

  lemma WriteHeld(env: Env, s: State, a: Step, key: TokenKey, last: Bytes, lost: bool)
    requires Enabled(env, s, a) && Orderly(s, key) && Held(s, key, last, lost)
    requires Serial(s, a, key) && WritesKey(s, a, key)
    ensures Held(Apply(env, s, a), key, last, LostAfter(s, a, key, lost))
  {
    OrderlyWrite(env, s, a, key);
    assert WorksOn(s, s.ops[a.op], key);
    OneRotation(s, a.op, key);
  }

  lemma AbandonHeld(env: Env, s: State, a: Step, key: TokenKey, last: Bytes, lost: bool)
    requires Enabled(env, s, a) && Orderly(s, key) && Held(s, key, last, lost) && a.Abandon?
    ensures Held(Apply(env, s, a), key, last, LostAfter(s, a, key, lost))
  {
    OthersKeepKey(env, s, a, key);
    if AbandonsRotation(s, a, key) {
      OneRotation(s, a.op, key);
    } else {
      assert forall op | op in s.ops && HoldsRotation(s.ops[op], key) :: op in Apply(env, s, a).ops;
    }
  }

  // Steps that store nothing under the key, issue nothing for it and end no request.
  ghost predicate Neutral(s: State, a: Step, key: TokenKey) {
    && !WritesKey(s, a, key) && !IssuesTo(s, a, key) && !a.Abandon?
    && (a.Refresh? ==> a.op in s.ops && s.ops[a.op].Fetched? && a.owner == s.ops[a.op].key)
  }

  lemma NeutralHeld(env: Env, s: State, a: Step, key: TokenKey, last: Bytes, lost: bool)
    requires Enabled(env, s, a) && Held(s, key, last, lost) && Neutral(s, a, key)
    ensures Held(Apply(env, s, a), key, last, LostAfter(s, a, key, lost))
  {
    OthersKeepKey(env, s, a, key);
    SameRotations(env, s, a, key);
  }

  lemma SameRotations(env: Env, s: State, a: Step, key: TokenKey)
    requires Enabled(env, s, a) && Neutral(s, a, key)
    ensures var s' := Apply(env, s, a);
            && (forall op | op in s'.ops && HoldsRotation(s'.ops[op], key) :: op in s.ops && s.ops[op] == s'.ops[op])
            && (forall op | op in s.ops && HoldsRotation(s.ops[op], key) :: op in s'.ops && s'.ops[op] == s.ops[op])
  {
  }

  lemma HeldStep(env: Env, s: State, a: Step, key: TokenKey, last: Bytes, lost: bool)
    requires OpsOk(env, s) && LedgerOk(s.issued) && Enabled(env, s, a)
    requires Orderly(s, key) && Serial(s, a, key) && Held(s, key, last, lost)
    ensures Held(Apply(env, s, a), key, LastAfter(s, a, key, last), LostAfter(s, a, key, lost))
  {
    if a.Refresh? {
      RefreshOwner(env, s, a);
    }
    if WritesKey(s, a, key) {
      WriteHeld(env, s, a, key, last, lost);
    } else if a.Abandon? {
      AbandonHeld(env, s, a, key, last, lost);
    } else if IssuesTo(s, a, key) {
      RotationHeld(s, Apply(env, s, a), a.op, a.token, key, lost);
    } else {
      NeutralHeld(env, s, a, key, last, lost);
    }
  }

  lemma {:induction false} SerialRun(env: Env, r: Run, i: nat, j: nat, key: TokenKey)
    requires IsRun(env, r) && i <= j < |r.states| && SerialBetween(r, i, j, key)
    requires StoredRefresh(r.states[i], key) != [] && Current(r, i, key) && !Busy(r.states[i], key)
    ensures Orderly(r.states[j], key)
    ensures Held(r.states[j], key, LastIssued(r, j, key), RotationLost(r, i, j, key))
  {
    if i == j {
      SerialStart(env, r, i, key);
    } else {
      SerialRun(env, r, i, j - 1, key);
      assert Serial(r.states[j - 1], r.steps[j - 1], key);
      SerialRunStep(env, r, i, j - 1, key);
    }
  }

  lemma SerialStart(env: Env, r: Run, i: nat, key: TokenKey)
    requires IsRun(env, r) && i < |r.states|
    requires StoredRefresh(r.states[i], key) != [] && Current(r, i, key) && !Busy(r.states[i], key)
    ensures Orderly(r.states[i], key) && Held(r.states[i], key, LastIssued(r, i, key), false)
  {
    RunInv(env, r, i);
    var s := r.states[i];
    forall op | op in s.ops
      ensures !HoldsRotation(s.ops[op], key)
    {
      assert !WorksOn(s, s.ops[op], key);
    }
  }

  lemma SerialRunStep(env: Env, r: Run, i: nat, m: nat, key: TokenKey)
    requires IsRun(env, r) && i <= m < |r.steps| && Serial(r.states[m], r.steps[m], key)
    requires Orderly(r.states[m], key)
    requires Held(r.states[m], key, LastIssued(r, m, key), RotationLost(r, i, m, key))
    ensures Orderly(r.states[m + 1], key)
    ensures Held(r.states[m + 1], key, LastIssued(r, m + 1, key), RotationLost(r, i, m + 1, key))
  {
    SerialStateStep(env, r, m, key, LastIssued(r, m, key), RotationLost(r, i, m, key));
    RotationLostStep(r, i, m, key);
  }

  lemma SerialStateStep(env: Env, r: Run, m: nat, key: TokenKey, last: Bytes, lost: bool)
    requires IsRun(env, r) && m < |r.steps| && Serial(r.states[m], r.steps[m], key)
    requires Orderly(r.states[m], key) && Held(r.states[m], key, last, lost)
    ensures Orderly(r.states[m + 1], key)
    ensures var s, a := r.states[m], r.steps[m];
            Held(r.states[m + 1], key, LastAfter(s, a, key, last), LostAfter(s, a, key, lost))
  {
    RunInv(env, r, m);
    assert StepAt(env, r, m);
    OrderlyStep(env, r.states[m], r.steps[m], key);
    HeldStep(env, r.states[m], r.steps[m], key, last, lost);
  }

  // Over requests that do not overlap, a stored refresh token is never lost, the row a request has read
  // is the one still stored, and the row holds the last refresh token issued exactly if no request holds
  // a new one yet and none was abandoned with a new one in its hands.
  lemma RefreshTokenRetainedIff(env: Env, r: Run, i: nat, j: nat, key: TokenKey)
    requires IsRun(env, r) && i <= j < |r.states| && SerialBetween(r, i, j, key)
    requires StoredRefresh(r.states[i], key) != [] && Current(r, i, key) && !Busy(r.states[i], key)
    ensures var s := r.states[j];
            && StoredRefresh(s, key) != []
            && key in s.rows && key in s.view
            && (forall op | op in s.ops && WorksOn(s, s.ops[op], key) :: ReadsStored(s, s.ops[op], key))
            && (Current(r, j, key) <==> !Rotating(s, key) && !RotationLost(r, i, j, key))
  {
    SerialRun(env, r, i, j, key);
  }

  lemma RefreshStoresSome(env: Env, s: State, a: Step)
    requires OpsOk(env, s) && Enabled(env, s, a) && a.StoreRefresh?
    ensures StoredRefresh(Apply(env, s, a), s.ops[a.op].key) != []
  {
    assert OpOk(env, s, s.ops[a.op]);
  }

  // In every interleaving, exactly a delete, or a callback whose token came without a refresh token, leaves
  // a key without the refresh token it had.
  lemma ClearedExactlyByCallbackOrDelete(env: Env, r: Run, m: nat, key: TokenKey)
    requires IsRun(env, r) && m < |r.steps| && StoredRefresh(r.states[m], key) != []
    ensures var s, a := r.states[m], r.steps[m];
            StoredRefresh(r.states[m + 1], key) == [] <==>
              || a == Delete(key)
              || (a.StoreCallback? && a.op in s.ops && s.ops[a.op].Identified?
                  && s.ops[a.op].key == key && s.ops[a.op].token.refresh == [])
  {
    RunInv(env, r, m);
    assert StepAt(env, r, m);
    var s, a := r.states[m], r.steps[m];
    if a.StoreRefresh? && WritesKey(s, a, key) {
      RefreshStoresSome(env, s, a);
    } else if !WritesKey(s, a, key) {
      OthersKeepKey(env, s, a, key);
    }
  }
}
