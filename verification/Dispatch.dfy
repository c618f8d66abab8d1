/**
 The same request by two roads: sent at once with ?sync=true, or queued as a
 job, claimed by some worker at some time, dispatched by type and decoded.
 */
module Dispatch {
  import opened Prelude
  import opened Payloads
  import opened Jobs
  import opened Lifecycle
  import opened Queue
  import opened QueueInvariant
  import opened QueueRuns

  datatype Request =
    | SendEmail(provider: string, message: EmailMessage)
    | SendSms(provider: string, from: string, to: string, body: string)
    | ExecuteCode(provider: string, sourceCode: string, languageId: int, stdin: string)

  // A provider built for a tenant; what it does with a call is its own affair.
  type Provider = nat

  datatype Call =
    | EmailCall(p: Provider, message: EmailMessage)
    | SmsCall(p: Provider, from: string, to: string, body: string)
    | CodeCall(p: Provider, sourceCode: string, languageId: int, stdin: string)

  datatype Kind = EmailKind | SmsKind | CodeKind

  // buildEmailProvider, buildSMSProvider and buildCodeProvider on the configs stored at the time.
  type Builder = (Kind, Id, string) -> Result<Provider, string>

  datatype ExecError =
    | TenantNotFound
    | UnknownJobType(jobType: string)
    | InvalidPayload(reason: string)
    | ProviderUnavailable(reason: string)

  datatype Executor = EmailExecutor | SmsExecutor | CodeExecutor
  {
    function JobType(): string {
      match this
      case EmailExecutor => EMAIL_JOB
      case SmsExecutor => SMS_JOB
      case CodeExecutor => CODE_JOB
    }

    // Execute: decode the payload, build the provider, call it.
    function Execute(build: Builder, tenant: Id, payload: Object): Result<Call, ExecError> {
      match this
      case EmailExecutor =>
        (match UnmarshalEmail(payload)
         case Err(reason) => Err(InvalidPayload(reason))
         case Ok(job) => Via(build(EmailKind, tenant, job.provider), (p: Provider) => EmailCall(p, job.message)))
      case SmsExecutor =>
        (match UnmarshalSms(payload)
         case Err(reason) => Err(InvalidPayload(reason))
         case Ok(job) =>
           Via(build(SmsKind, tenant, job.provider), (p: Provider) => SmsCall(p, job.from, job.to, job.body)))
      case CodeExecutor =>
        (match UnmarshalCode(payload)
         case Err(reason) => Err(InvalidPayload(reason))
         case Ok(job) =>
           Via(build(CodeKind, tenant, job.provider),
               (p: Provider) => CodeCall(p, job.sourceCode, job.languageId, job.stdin)))
    }
  }

  function Via(built: Result<Provider, string>, call: Provider -> Call): Result<Call, ExecError> {
    match built
    case Err(reason) => Err(ProviderUnavailable(reason))
    case Ok(p) => Ok(call(p))
  }

  // The sync=true branch of the three handlers.
  function Sync(build: Builder, tenant: Id, r: Request): Result<Call, ExecError> {
    match r
    case SendEmail(provider, message) =>
      (match build(EmailKind, tenant, provider)
       case Err(reason) => Err(ProviderUnavailable(reason))
       case Ok(p) => Ok(EmailCall(p, message)))
    case SendSms(provider, from, to, body) =>
      (match build(SmsKind, tenant, provider)
       case Err(reason) => Err(ProviderUnavailable(reason))
       case Ok(p) => Ok(SmsCall(p, from, to, body)))
    case ExecuteCode(provider, sourceCode, languageId, stdin) =>
      (match build(CodeKind, tenant, provider)
       case Err(reason) => Err(ProviderUnavailable(reason))
       case Ok(p) => Ok(CodeCall(p, sourceCode, languageId, stdin)))
  }

  datatype CreateParams = CreateParams(jobType: string, payload: Object)

  // The other branch: what the handlers put in the jobs table.
  function Enqueued(r: Request): CreateParams {
    match r
    case SendEmail(provider, message) => CreateParams(EMAIL_JOB, MarshalEmail(EmailJob(provider, message)))
    case SendSms(provider, from, to, body) => CreateParams(SMS_JOB, MarshalSms(SmsJob(provider, from, to, body)))
    case ExecuteCode(provider, sourceCode, languageId, stdin) =>
      CreateParams(CODE_JOB, MarshalCode(CodeJob(provider, sourceCode, languageId, stdin)))
  }

  function ExecuteJob(executors: map<string, Executor>, tenants: set<Id>, build: Builder,
                      tenant: Id, jobType: string, payload: Object): Result<Call, ExecError>
  {
    if tenant !in tenants then Err(TenantNotFound)
    else if jobType !in executors then Err(UnknownJobType(jobType))
    else executors[jobType].Execute(build, tenant, payload)
  }

  // The dispatch table: every executor under its own job type, and nothing else.
  ghost predicate Registered(executors: map<string, Executor>) {
    && executors.Keys == REGISTERED
    && forall e: Executor :: e.JobType() in executors && executors[e.JobType()] == e
  }

  const TABLE: map<string, Executor> :=
    map[EMAIL_JOB := EmailExecutor, SMS_JOB := SmsExecutor, CODE_JOB := CodeExecutor]

  // There is only one such table.
  lemma OneTable(executors: map<string, Executor>)
    ensures Registered(executors) <==> executors == TABLE
  {
    if Registered(executors) {
      assert executors[EmailExecutor.JobType()] == EmailExecutor;
      assert executors[SmsExecutor.JobType()] == SmsExecutor;
      assert executors[CodeExecutor.JobType()] == CodeExecutor;
    }
  }

  class Handler {
    var executors: map<string, Executor>

    constructor ()
      ensures Registered(executors)
    {
      executors := map[];
      new;
      RegisterExecutors();
    }

    method RegisterExecutors()
      modifies this
      ensures Registered(executors)
      ensures executors == map["email.send" := EmailExecutor, "sms.send" := SmsExecutor, "code.execute" := CodeExecutor]
    {
      var execs := [EmailExecutor, SmsExecutor, CodeExecutor];
      executors := map[];
      for i := 0 to |execs|
        invariant executors.Keys == set k | 0 <= k < i :: execs[k].JobType()
        invariant forall k | 0 <= k < i :: executors[execs[k].JobType()] == execs[k]
      {
        executors := executors[execs[i].JobType() := execs[i]];
      }
      assert execs[0] == EmailExecutor && execs[1] == SmsExecutor && execs[2] == CodeExecutor;
      OneTable(executors);
    }
  }

  // What stands in the payload column, under which key.
  lemma PayloadColumns(e: EmailJob, s: SmsJob, c: CodeJob)
    ensures var o, m := MarshalEmail(e), e.message;
            && o.Keys == {"provider", "to", "from", "subject", "body", "html"}
            && o["provider"] == Text(e.provider) && o["to"] == Texts(m.to) && o["from"] == Text(m.from)
            && o["subject"] == Text(m.subject) && o["body"] == Text(m.body) && o["html"] == Bool(m.html)
    ensures var o := MarshalSms(s);
            && o.Keys == {"provider", "from", "to", "body"}
            && o["provider"] == Text(s.provider) && o["from"] == Text(s.from) && o["to"] == Text(s.to)
            && o["body"] == Text(s.body)
    ensures var o := MarshalCode(c);
            && o.Keys == {"provider", "source_code", "language_id"} + (if c.stdin == "" then {} else {"stdin"})
            && o["provider"] == Text(c.provider) && o["source_code"] == Text(c.sourceCode)
            && o["language_id"] == Number(c.languageId) && (c.stdin != "" ==> o["stdin"] == Text(c.stdin))
  {
  }

  // Unmarshalling gives back what was marshalled, an empty stdin included.
  lemma PayloadsRoundTrip(e: EmailJob, s: SmsJob, c: CodeJob)
    ensures UnmarshalEmail(MarshalEmail(e)) == Ok(e)
    ensures UnmarshalSms(MarshalSms(s)) == Ok(s)
    ensures UnmarshalCode(MarshalCode(c)) == Ok(c)
  {
  }

  // A queued request makes the provider call the synchronous branch would have made, or fails as it
  // would have failed: never for an unknown job type or an unreadable payload.
  lemma AsyncRefinesSync(executors: map<string, Executor>, tenants: set<Id>, build: Builder, tenant: Id, r: Request)
    requires Registered(executors) && tenant in tenants
    ensures var q := Enqueued(r);
            ExecuteJob(executors, tenants, build, tenant, q.jobType, q.payload) == Sync(build, tenant, r)
  {
    match r
    case SendEmail(provider, message) =>
      assert executors[EmailExecutor.JobType()] == EmailExecutor;
      PayloadsRoundTrip(EmailJob(provider, message), SmsJob("", "", "", ""), CodeJob("", "", 0, ""));
    case SendSms(provider, from, to, body) =>
      assert executors[SmsExecutor.JobType()] == SmsExecutor;
      assert UnmarshalSms(MarshalSms(SmsJob(provider, from, to, body))) == Ok(SmsJob(provider, from, to, body));
    case ExecuteCode(provider, sourceCode, languageId, stdin) =>
      assert executors[CodeExecutor.JobType()] == CodeExecutor;
      assert UnmarshalCode(MarshalCode(CodeJob(provider, sourceCode, languageId, stdin)))
             == Ok(CodeJob(provider, sourceCode, languageId, stdin));
  }

  const EmptyMessage := EmailMessage([], "", "", "", false)

  // What each executor makes of the others' payloads. Only e-mail and SMS reject each other's, for the type
  // of "to". Every other pair is decoded without an error, the fields that are missing left at zero: nothing
  // but the job type keeps a queued message from being run as an empty program, or a program from being
  // sent as an empty message.
  lemma DecodingTable(e: EmailJob, s: SmsJob, c: CodeJob)
    ensures UnmarshalSms(MarshalEmail(e)) == Err("invalid sms job payload")
    ensures UnmarshalCode(MarshalEmail(e)) == Ok(CodeJob(e.provider, "", 0, ""))
    ensures UnmarshalEmail(MarshalSms(s)) == Err("invalid email job payload")
    ensures UnmarshalCode(MarshalSms(s)) == Ok(CodeJob(s.provider, "", 0, ""))
    ensures UnmarshalEmail(MarshalCode(c)) == Ok(EmailJob(c.provider, EmptyMessage))
    ensures UnmarshalSms(MarshalCode(c)) == Ok(SmsJob(c.provider, "", "", ""))
  {
    PayloadColumns(e, s, c);
  }

  predicate Decodes(x: Executor, payload: Object) {
    match x
    case EmailExecutor => UnmarshalEmail(payload).Ok?
    case SmsExecutor => UnmarshalSms(payload).Ok?
    case CodeExecutor => UnmarshalCode(payload).Ok?
  }

  lemma RejectsUndecoded(x: Executor, build: Builder, tenant: Id, payload: Object)
    ensures (exists reason :: x.Execute(build, tenant, payload) == Err(InvalidPayload(reason)))
            <==> !Decodes(x, payload)
  {
    var r := x.Execute(build, tenant, payload);
    if !Decodes(x, payload) {
      assert r == Err(InvalidPayload(r.error.reason));
    }
  }

  lemma DecodesIff(x: Executor, r: Request)
    ensures !Decodes(x, Enqueued(r).payload) <==> (x.EmailExecutor? && r.SendSms?) || (x.SmsExecutor? && r.SendEmail?)
  {
    var e, s, c := EmailJob("", EmptyMessage), SmsJob("", "", "", ""), CodeJob("", "", 0, "");
    match r {
      case SendEmail(provider, message) => e := EmailJob(provider, message);
      case SendSms(provider, from, to, body) => s := SmsJob(provider, from, to, body);
      case ExecuteCode(provider, sourceCode, languageId, stdin) =>
        c := CodeJob(provider, sourceCode, languageId, stdin);
    }
    PayloadsRoundTrip(e, s, c);
    DecodingTable(e, s, c);
  }

  // An executor rejects the payload of a request exactly if one is for e-mail and the other for SMS.
  lemma RejectsIff(x: Executor, build: Builder, tenant: Id, r: Request)
    ensures (exists reason :: x.Execute(build, tenant, Enqueued(r).payload) == Err(InvalidPayload(reason)))
            <==> (x.EmailExecutor? && r.SendSms?) || (x.SmsExecutor? && r.SendEmail?)
  {
    RejectsUndecoded(x, build, tenant, Enqueued(r).payload);
    DecodesIff(x, r);
  }

  // Over whole runs: a request queued at step i and claimed by any worker at any later time, first
  // try or retry, is executed with the arguments of the synchronous branch.
  lemma QueuedRequestIsServed(c: Config, run: Run, i: nat, j: nat, w: Wid, executors: map<string, Executor>,
                              tenants: set<Id>, build: Builder, r: Request)
    requires IsRun(c, run) && i < |run.steps| && i < j < |run.states|
    requires run.steps[i].Create? && run.steps[i].jobType == Enqueued(r).jobType
             && run.steps[i].payload == Enqueued(r).payload
    requires w in run.states[j].workers && run.states[j].workers[w].Executing?
             && run.states[j].workers[w].job.id == run.steps[i].id
    requires Registered(executors) && run.steps[i].tenant in tenants
    ensures var job := run.states[j].workers[w].job;
            ExecuteJob(executors, tenants, build, job.tenant, job.jobType, job.payload)
            == Sync(build, run.steps[i].tenant, r)
  {
    CreatedRow(c, run, i);
    RowsPersist(c, run, i + 1, j, run.steps[i].id);
    SnapshotIsRow(c, run, j, w);
    AsyncRefinesSync(executors, tenants, build, run.steps[i].tenant, r);
  }

  lemma SnapshotIsRow(c: Config, run: Run, j: nat, w: Wid)
    requires IsRun(c, run) && j < |run.states|
    requires w in run.states[j].workers && run.states[j].workers[w].Executing?
    ensures var job := run.states[j].workers[w].job;
            job.id in run.states[j].jobs && run.states[j].jobs[job.id] == job
  {
    RunInv(c, run, j);
    assert OwnsRow(c, run.states[j], run.states[j].workers[w]);
  }
}
