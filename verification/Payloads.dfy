/**
 The JSON objects that travel through the payload column of a job: what the
 handlers marshal and what the executors unmarshal, field by field.
 */
module Payloads {
  import opened Prelude

  datatype Value = Text(s: string) | Number(n: int) | Bool(b: bool) | Texts(items: seq<string>)

  type Object = map<string, Value>

  datatype EmailMessage = EmailMessage(to: seq<string>, from: string, subject: string, body: string, html: bool)

  datatype EmailJob = EmailJob(provider: string, message: EmailMessage)

  datatype SmsJob = SmsJob(provider: string, from: string, to: string, body: string)

  datatype CodeJob = CodeJob(provider: string, sourceCode: string, languageId: int, stdin: string)

  // The embedded message is flattened into the object of the job.
  function MarshalEmail(p: EmailJob): Object {
    map["provider" := Text(p.provider), "to" := Texts(p.message.to), "from" := Text(p.message.from),
        "subject" := Text(p.message.subject), "body" := Text(p.message.body), "html" := Bool(p.message.html)]
  }

  function MarshalSms(p: SmsJob): Object {
    map["provider" := Text(p.provider), "from" := Text(p.from), "to" := Text(p.to), "body" := Text(p.body)]
  }

  // stdin is tagged omitempty: an empty one leaves no key behind.
  function MarshalCode(p: CodeJob): Object {
    var o := map["provider" := Text(p.provider), "source_code" := Text(p.sourceCode),
                 "language_id" := Number(p.languageId)];
    if p.stdin == "" then o else o["stdin" := Text(p.stdin)]
  }

  // A missing key leaves the zero value; a value of another JSON type is an error.
  function TextField(o: Object, key: string): Result<string, string> {
    if key !in o then Ok("") else if o[key].Text? then Ok(o[key].s) else Err("cannot unmarshal " + key)
  }

  function NumberField(o: Object, key: string): Result<int, string> {
    if key !in o then Ok(0) else if o[key].Number? then Ok(o[key].n) else Err("cannot unmarshal " + key)
  }

  function BoolField(o: Object, key: string): Result<bool, string> {
    if key !in o then Ok(false) else if o[key].Bool? then Ok(o[key].b) else Err("cannot unmarshal " + key)
  }

  function TextsField(o: Object, key: string): Result<seq<string>, string> {
    if key !in o then Ok([]) else if o[key].Texts? then Ok(o[key].items) else Err("cannot unmarshal " + key)
  }

  function UnmarshalEmail(o: Object): Result<EmailJob, string> {
    match (TextField(o, "provider"), TextsField(o, "to"), TextField(o, "from"),
           TextField(o, "subject"), TextField(o, "body"), BoolField(o, "html"))
    case (Ok(provider), Ok(to), Ok(from), Ok(subject), Ok(body), Ok(html)) =>
      Ok(EmailJob(provider, EmailMessage(to, from, subject, body, html)))
    case _ => Err("invalid email job payload")
  }

  function UnmarshalSms(o: Object): Result<SmsJob, string> {
    match (TextField(o, "provider"), TextField(o, "from"), TextField(o, "to"), TextField(o, "body"))
    case (Ok(provider), Ok(from), Ok(to), Ok(body)) => Ok(SmsJob(provider, from, to, body))
    case _ => Err("invalid sms job payload")
  }

  function UnmarshalCode(o: Object): Result<CodeJob, string> {
    match (TextField(o, "provider"), TextField(o, "source_code"), NumberField(o, "language_id"), TextField(o, "stdin"))
    case (Ok(provider), Ok(sourceCode), Ok(languageId), Ok(stdin)) =>
      Ok(CodeJob(provider, sourceCode, languageId, stdin))
    case _ => Err("invalid code job payload")
  }
}
