/**
 Runs from an empty store in which a new refresh token, or a delete, is lost:
 the conditions of Rotation and of Deletion are not idle.
 Each run starts with a user who has just authorized.
 */
module LostUpdates {
  import opened Prelude
  import opened Crypto
  import opened Vault
  import opened VaultRuns
  import opened Rotation

  const USER := TokenKey(0, GOOGLE, "user")
  const FIRST := Token([1], [2], Some(0))
  const SECOND := Token([3], [4], Some(0))
  const THIRD := Token([5], [6], Some(0))
  // No new refresh token comes with these.
  const BARE := Token([7], [], Some(0))
  const ECHO := Token([7], FIRST.refresh, Some(0))

  function Zeros(n: nat): (r: Bytes)
    ensures |r| == n
  {
    seq(n, _ => 0)
  }

  // One more step: what it does to the refresh token issued last.
  lemma Takes(env: Env, r: Run, a: Step) returns (longer: Run)
    requires IsRun(env, r) && Enabled(env, Last(r), a)
    ensures IsRun(env, longer) && Extends(r, longer, a)
    ensures Last(longer) == Apply(env, Last(r), a)
    ensures Issued(longer) == LastAfter(Last(r), a, USER, Issued(r))
    ensures Begun(r) && !a.Exchange? && !a.Delete? ==> Begun(longer)
    ensures Patient(r) && !a.Abandon? ==> Patient(longer)
  {
    longer := Extend(env, r, a);
    LastIssuedFrame(r, longer, |r.steps|, USER);
    if |r.steps| >= 5 {
      LastIssuedFrame(r, longer, 5, USER);
    }
  }

  ghost predicate Extends(r: Run, longer: Run, a: Step) {
    && longer.steps == r.steps + [a] && |longer.states| == |r.states| + 1
    && forall k | 0 <= k < |r.states| :: longer.states[k] == r.states[k]
  }

  // After five steps the user holds the refresh token issued last and no request is in flight; from there
  // on the user neither authorizes again nor deletes the token.
  ghost predicate Begun(r: Run) {
    && 5 <= |r.steps| < |r.states|
    && Current(r, 5, USER) && StoredRefresh(r.states[5], USER) != [] && !Busy(r.states[5], USER)
    && (forall m | 5 <= m < |r.steps| :: !r.steps[m].Exchange? && !r.steps[m].Delete?)
  }

  ghost function Issued(r: Run): Bytes
    requires |r.states| == |r.steps| + 1
  {
    LastIssued(r, |r.steps|, USER)
  }

  // A user has authorized; the token expires at time 0 and nothing is in flight.
  ghost predicate Authorized(env: Env, s: State) {
    && s.clock == 0 && s.ops == map[] && s.view == map[USER := FIRST] && s.issued == [Issue(USER, FIRST)]
    && USER in s.rows && s.rows[USER].expiresAt == Some(0)
    && BuildProvider(env, s.tenants, s.configs, 0, GOOGLE).Ok?
  }

  lemma Configured(env: Env) returns (r: Run)
    requires |env.root| == KEY_SIZE
    ensures IsRun(env, r) && |r.steps| == 2
    ensures var s := Last(r);
            && s.clock == 0 && s.ops == map[] && s.view == map[] && s.rows == map[] && s.issued == []
            && DataKey(env, s.tenants, 0).Ok? && BuildProvider(env, s.tenants, s.configs, 0, GOOGLE).Ok?
  {
    r := Trace([State(0, map[], map[], map[], map[], [], map[], map[], [])], []);
    r := Takes(env, r, CreateTenant(0, Zeros(KEY_SIZE), Zeros(NONCE_SIZE)));
    RunInv(env, r, 1);
    r := Takes(env, r, SetConfig(ConfigKey(0, GOOGLE), "client", [], Zeros(NONCE_SIZE)));
    RunInv(env, r, 2);
    assert ConfigOk(env, Last(r), ConfigKey(0, GOOGLE));
  }

  lemma AuthorizedRun(env: Env) returns (r: Run)
    requires |env.root| == KEY_SIZE
    ensures IsRun(env, r) && |r.steps| == 5 && Authorized(env, Last(r)) && Issued(r) == FIRST.refresh
    ensures Begun(r)
  {
    r := Configured(env);
    r := Takes(env, r, Exchange(0, USER, FIRST));
    assert Issue(USER, FIRST) in Last(r).issued;
    r := Takes(env, r, Identify(0, "user"));
    r := Takes(env, r, StoreCallback(0, Zeros(NONCE_SIZE), Zeros(NONCE_SIZE)));
  }

  lemma Reads(env: Env, r: Run, op: Id) returns (longer: Run)
    requires IsRun(env, r) && op !in Last(r).ops && USER in Last(r).rows && Expiring(Last(r).clock, Last(r).rows[USER])
    ensures IsRun(env, longer) && Extends(r, longer, ReadExpiring(op, USER))
    ensures (Begun(r) ==> Begun(longer)) && (Patient(r) ==> Patient(longer))
    ensures var s := Last(r);
            && USER in s.view && Issued(longer) == Issued(r)
            && Last(longer) == s.(ops := s.ops[op := Fetched(USER, s.rows[USER], s.view[USER])])
  {
    RunInv(env, r, |r.steps|);
    CanRead(env, Last(r), op, USER);
    longer := Takes(env, r, ReadExpiring(op, USER));
  }

  lemma Refreshes(env: Env, r: Run, op: Id, token: Token) returns (longer: Run)
    requires IsRun(env, r) && op in Last(r).ops && Last(r).ops[op].Fetched? && Last(r).ops[op].key == USER
    requires Last(r).ops[op].plain.refresh != []
    requires BuildProvider(env, Last(r).tenants, Last(r).configs, 0, GOOGLE).Ok?
    requires forall i | i in Last(r).issued :: i.key == USER
    ensures IsRun(env, longer) && Extends(r, longer, Refresh(op, USER, token))
    ensures (Begun(r) ==> Begun(longer)) && (Patient(r) ==> Patient(longer))
    ensures var s, o := Last(r), Last(r).ops[op];
            && Last(longer) == s.(issued := s.issued + [Issue(USER, token)],
                                  ops := s.ops[op := Refreshed(USER, o.row, o.plain, token)])
            && Issued(longer) == if token.refresh in {[], o.plain.refresh} then Issued(r) else token.refresh
  {
    RunInv(env, r, |r.steps|);
    CanRefresh(env, Last(r), op, token);
    longer := Takes(env, r, Refresh(op, USER, token));
  }

  lemma Stores(env: Env, r: Run, op: Id) returns (longer: Run)
    requires IsRun(env, r) && op in Last(r).ops && Last(r).ops[op].Refreshed? && Last(r).ops[op].key == USER
    ensures IsRun(env, longer)
    ensures Extends(r, longer, StoreRefresh(op, Zeros(NONCE_SIZE), Zeros(NONCE_SIZE)))
    ensures (Begun(r) ==> Begun(longer)) && (Patient(r) ==> Patient(longer))
    ensures var s, s', o := Last(r), Last(longer), Last(r).ops[op];
            && s'.view == s.view[USER := Merged(o.plain, o.token)] && s'.ops == s.ops - {op}
            && Issued(longer) == Issued(r) && s'.issued == s.issued
            && s'.clock == s.clock && s'.tenants == s.tenants && s'.configs == s.configs
  {
    RunInv(env, r, |r.steps|);
    CanStore(env, Last(r), op, Zeros(NONCE_SIZE), Zeros(NONCE_SIZE));
    longer := Takes(env, r, StoreRefresh(op, Zeros(NONCE_SIZE), Zeros(NONCE_SIZE)));
  }

  // Nor does any request fail on the way.
  ghost predicate Patient(r: Run) {
    forall m | 5 <= m < |r.steps| :: !r.steps[m].Abandon?
  }

  // At the end no request is in flight, and the row holds a refresh token that is not the one issued last.
  ghost predicate Outdated(env: Env, r: Run, stored: Bytes, last: Bytes) {
    && IsRun(env, r) && Begun(r) && Last(r).ops == map[]
    && StoredRefresh(Last(r), USER) == stored != last == Issued(r)
  }

  // The last request in flight stores.
  lemma Finishes(env: Env, r: Run, op: Id) returns (longer: Run)
    requires IsRun(env, r) && Begun(r) && Last(r).ops.Keys == {op}
    requires Last(r).ops[op].Refreshed? && Last(r).ops[op].key == USER
    ensures IsRun(env, longer) && Begun(longer) && (Patient(r) ==> Patient(longer))
    ensures Last(longer).ops == map[] && Issued(longer) == Issued(r)
    ensures StoredRefresh(Last(longer), USER) == Merged(Last(r).ops[op].plain, Last(r).ops[op].token).refresh
  {
    longer := Stores(env, r, op);
  }

  // One request, which cannot store the new refresh token it was sent: encryption or the upsert fails, or
  // the process dies.
  lemma AbandonedRotationIsLost(env: Env) returns (r: Run)
    requires |env.root| == KEY_SIZE
    ensures Outdated(env, r, FIRST.refresh, SECOND.refresh) && SerialBetween(r, 5, |r.steps|, USER)
  {
    var start := AuthorizedRun(env);
    var read := Reads(env, start, 1);
    var answered := Refreshes(env, read, 1, SECOND);
    r := Takes(env, answered, Abandon(1));
    NothingOverlaps(r);
  }

  lemma NothingOverlaps(r: Run)
    requires Begun(r) && |r.steps| == 8 && r.steps[5].ReadExpiring? && r.steps[6].Refresh? && r.steps[7].Abandon?
    ensures SerialBetween(r, 5, |r.steps|, USER)
  {
  }

  // Two requests have read the same row, and the first has been sent a new refresh token.
  lemma Overlapping(env: Env) returns (r: Run)
    requires |env.root| == KEY_SIZE
    ensures IsRun(env, r) && |r.steps| == 8 && Begun(r) && Authorized(env, r.states[5]) && Issued(r) == SECOND.refresh
    ensures Patient(r)
    ensures var s, row := Last(r), r.states[5].rows[USER];
            && s.ops == map[1 := Refreshed(USER, row, FIRST, SECOND), 2 := Fetched(USER, row, FIRST)]
            && s.view == map[USER := FIRST] && s.issued == [Issue(USER, FIRST), Issue(USER, SECOND)]
            && BuildProvider(env, s.tenants, s.configs, 0, GOOGLE).Ok?
  {
    var start := AuthorizedRun(env);
    var one := Reads(env, start, 1);
    var two := Reads(env, one, 2);
    r := Refreshes(env, two, 1, SECOND);
  }

  // Two requests that overlap are both sent a new refresh token; the earlier one is stored last.
  lemma LaterRotationIsOverwritten(env: Env) returns (r: Run)
    requires |env.root| == KEY_SIZE
    ensures Outdated(env, r, SECOND.refresh, THIRD.refresh)
    ensures Patient(r)
  {
    var overlap := Overlapping(env);
    var answered := Refreshes(env, overlap, 2, THIRD);
    var stored := Stores(env, answered, 2);
    r := Finishes(env, stored, 1);
  }

  // Two requests that overlap, one sent a new refresh token and the other none, or the one it has shown:
  // the second puts back the old one it has read.
  lemma OldRefreshTokenIsPutBack(env: Env, token: Token) returns (r: Run)
    requires |env.root| == KEY_SIZE && (token == BARE || token == ECHO)
    ensures Outdated(env, r, FIRST.refresh, SECOND.refresh)
    ensures Patient(r)
  {
    var overlap := Overlapping(env);
    var stored := Stores(env, overlap, 1);
    var answered := Refreshes(env, stored, 2, token);
    r := Finishes(env, answered, 2);
  }

  // A request in flight during a delete brings the token back.
  lemma DeletedTokenReturns(env: Env) returns (r: Run)
    requires |env.root| == KEY_SIZE
    ensures IsRun(env, r) && |r.steps| == 9 && r.steps[7] == Delete(USER) && USER !in r.states[8].rows
    ensures forall m | 5 <= m < |r.steps| :: !r.steps[m].Exchange?
    ensures USER in Last(r).rows && Last(r).ops == map[]
  {
    var start := AuthorizedRun(env);
    var read := Reads(env, start, 1);
    var answered := Refreshes(env, read, 1, SECOND);
    var deleted := Deletes(env, answered);
    r := Stores(env, deleted, 1);
    RowsAreViewed(env, r);
    assert USER in Last(r).view.Keys;
  }

  lemma Deletes(env: Env, r: Run) returns (longer: Run)
    requires IsRun(env, r)
    ensures IsRun(env, longer) && Extends(r, longer, Delete(USER))
    ensures USER !in Last(longer).rows && Last(longer).ops == Last(r).ops
  {
    longer := Takes(env, r, Delete(USER));
  }

  lemma RowsAreViewed(env: Env, r: Run)
    requires IsRun(env, r)
    ensures Last(r).rows.Keys == Last(r).view.Keys
  {
    RunInv(env, r, |r.steps|);
  }
}
