/**
  Request payloads as the orchestrator builds them: nested associative
  arrays whose leaves are null, booleans or strings. Keys prefixed with '#'
  (secrets for the job runner) are ordinary keys here.
 */
module Payload {
  import opened Wrappers

  datatype Value =
    | Null
    | Bool(b: bool)
    | Str(s: string)
    | Obj(fields: map<string, Value>)

  type Parameters = map<string, Value>

  /** The envelope of a synchronous action: `{parameters: {...}}`. */
  function SyncPayload(parameters: Parameters): Value
  {
    Obj(map["parameters" := Obj(parameters)])
  }

  /** The envelope of a job submission: `{configData: {parameters: {...}}}`. */
  function JobPayload(parameters: Parameters): Value
  {
    Obj(map["configData" := Obj(map["parameters" := Obj(parameters)])])
  }

  /** Looks up an object-valued field, if the value is an object that has one. */
  function Field(v: Value, key: string): Option<Parameters>
  {
    if v.Obj? && key in v.fields && v.fields[key].Obj? then Some(v.fields[key].fields) else None
  }

  /** The parameters a synchronous-action payload carries, read back from its envelope. */
  function SyncParameters(payload: Value): Option<Parameters>
  {
    Field(payload, "parameters")
  }

  /** The parameters a job payload carries, read back from its envelope. */
  function JobParameters(payload: Value): Option<Parameters>
  {
    match Field(payload, "configData")
    case None => None
    case Some(config) => Field(Obj(config), "parameters")
  }

  /** Reading the parameters back out of a synchronous envelope gives exactly what was put in. */
  lemma SyncPayloadRoundTrip(parameters: Parameters)
    ensures SyncParameters(SyncPayload(parameters)) == Some(parameters)
    ensures SyncPayload(parameters).fields.Keys == {"parameters"}
  {
  }

  /** Reading the parameters back out of a job envelope gives exactly what was put in. */
  lemma JobPayloadRoundTrip(parameters: Parameters)
    ensures JobParameters(JobPayload(parameters)) == Some(parameters)
    ensures JobPayload(parameters).fields.Keys == {"configData"}
    ensures JobPayload(parameters).fields["configData"].fields.Keys == {"parameters"}
  {
  }
}
