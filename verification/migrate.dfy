/**
  The migration orchestrator: `run` issues a fixed sequence of six requests
  against the source and destination runners and stops at the first job
  whose status is not "success".

  A run is modelled as a pure function of the two runners (as oracles) and
  the two configuration strings; its result is the `Execution`: the trace of
  requests issued, in order, and the outcome.
 */
module Migrate {
  import opened Wrappers
  import opened Payload
  import opened Runner

  const ProjectBackupComponent: string := "keboola.project-backup"
  const ProjectRestoreComponent: string := "keboola.project-restore"
  const OrchestratorMigrateComponent: string := "keboola.app-orchestrator-migrate"
  const GoodDataWriterMigrateComponent: string := "keboola.app-gooddata-writer-migrate"
  const SnowflakeWriterMigrateComponent: string := "keboola.app-snowflake-writer-migrate"

  const JobStatusSuccess: string := "success"

  const GenerateReadCredentialsAction: string := "generate-read-credentials"

  const SnapshotErrorPrefix: string := "Project snapshot create error: "
  const RestoreErrorPrefix: string := "Project restore error: "
  const SnowflakeErrorPrefix: string := "Snowflake writers migration error: "
  const GoodDataErrorPrefix: string := "GoodData writers migration error: "
  const OrchestrationsErrorPrefix: string := "Orchestrations migration error: "

  /** How a run ends: normally, with the user-facing error the orchestrator raises, or with a runner's own fault. */
  datatype Outcome = Ok | UserError(message: string) | CollaboratorFault

  /** The requests issued so far and how the run stands; `Ok` while it is still going. */
  datatype Execution = Execution(trace: seq<Call>, outcome: Outcome)

  /** The constructor's fields (the logger is left out). */
  datatype Migrate = Migrate(
    sourceProjectClient: Runner,
    destProjectClient: Runner,
    sourceProjectUrl: string,
    sourceProjectToken: string)

  function ClientRunner(m: Migrate, client: Client): Runner
  {
    match client
    case Source => m.sourceProjectClient
    case Dest => m.destProjectClient
  }

  /** Interprets a finished job: only the exact string "success" lets the run go on. */
  function CheckJob(job: JobResult, errorPrefix: string): (r: Outcome)
    ensures r.Ok? <==> job.status == Str("success")
    ensures !r.Ok? ==> r.UserError?
    ensures r.UserError? ==> |r.message| == |errorPrefix| + |job.message|
                             && r.message[..|errorPrefix|] == errorPrefix
                             && r.message[|errorPrefix|..] == job.message
  {
    if job.status == Str(JobStatusSuccess) then Ok else UserError(errorPrefix + job.message)
  }

  /**
    Submits one job to `client`, unless the run has already stopped; the
    runner's reply is the one it gives to its next job.
   */
  function SubmitJob(m: Migrate, e: Execution, client: Client, component: string,
                     parameters: Parameters, errorPrefix: string): (r: Execution)
    ensures !e.outcome.Ok? ==> r == e
    ensures e.outcome.Ok? ==> |r.trace| == |e.trace| + 1 && r.trace[..|e.trace|] == e.trace
    ensures e.outcome.Ok? ==> r.trace[|e.trace|] == Job(client, component, JobPayload(parameters))
    ensures r.outcome.Ok?
            <==> e.outcome.Ok?
                 && var reply := ClientRunner(m, client).jobReplies(JobsTo(e.trace, client));
                    reply.Returned? && reply.value.status == Str("success")
    ensures e.outcome.Ok? && r.outcome.UserError? ==> errorPrefix <= r.outcome.message
    ensures var reply := ClientRunner(m, client).jobReplies(JobsTo(e.trace, client));
            e.outcome.Ok? && reply.Raised? ==> r.outcome == CollaboratorFault
    ensures var reply := ClientRunner(m, client).jobReplies(JobsTo(e.trace, client));
            e.outcome.Ok? && reply.Returned? && reply.value.status != Str("success")
            ==> r.outcome == UserError(errorPrefix + reply.value.message)
  {
    if !e.outcome.Ok? then e
    else
      var call := Job(client, component, JobPayload(parameters));
      var outcome :=
        match ClientRunner(m, client).jobReplies(JobsTo(e.trace, client))
        case Raised => CollaboratorFault
        case Returned(job) => CheckJob(job, errorPrefix);
      Execution(e.trace + [call], outcome)
  }

  /** Step 1: the source runner's `generate-read-credentials` action, asked with `backupId = null`. */
  function GenerateBackupCredentials(m: Migrate, e: Execution): (r: (Execution, Option<Credentials>))
    requires e.outcome.Ok?
    ensures |r.0.trace| == |e.trace| + 1 && r.0.trace[..|e.trace|] == e.trace
    ensures r.0.trace[|e.trace|] == SyncAction(Source, "keboola.project-backup", "generate-read-credentials",
                                               SyncPayload(map["backupId" := Null]))
    ensures !r.0.outcome.UserError?
    ensures r.0.outcome == CollaboratorFault
            <==> m.sourceProjectClient.syncReplies(SyncActionsTo(e.trace, Source)).Raised?
    ensures r.1.Some? <==> r.0.outcome.Ok?
    ensures r.1.Some? ==> m.sourceProjectClient.syncReplies(SyncActionsTo(e.trace, Source)) == Returned(r.1.value)
  {
    var call := SyncAction(Source, ProjectBackupComponent, GenerateReadCredentialsAction,
                           SyncPayload(map["backupId" := Null]));
    match m.sourceProjectClient.syncReplies(SyncActionsTo(e.trace, Source))
    case Raised => (Execution(e.trace + [call], CollaboratorFault), None)
    case Returned(credentials) => (Execution(e.trace + [call], Ok), Some(credentials))
  }

  /** Step 2: snapshot the source project under the backup id from step 1. */
  function BackupSourceProject(m: Migrate, e: Execution, backupId: string): (r: Execution)
    ensures !e.outcome.Ok? ==> r == e
    ensures e.outcome.Ok?
            ==> r.trace == e.trace + [Job(Source, "keboola.project-backup", JobPayload(map["backupId" := Str(backupId)]))]
    ensures e.outcome.Ok? && r.outcome.UserError? ==> "Project snapshot create error: " <= r.outcome.message
    ensures var reply := m.sourceProjectClient.jobReplies(JobsTo(e.trace, Source));
            e.outcome.Ok? ==> (r.outcome.Ok? <==> reply.Returned? && reply.value.status == Str("success"))
    ensures var reply := m.sourceProjectClient.jobReplies(JobsTo(e.trace, Source));
            e.outcome.Ok? && reply.Raised? ==> r.outcome == CollaboratorFault
    ensures var reply := m.sourceProjectClient.jobReplies(JobsTo(e.trace, Source));
            e.outcome.Ok? && reply.Returned? && reply.value.status != Str("success")
            ==> r.outcome == UserError("Project snapshot create error: " + reply.value.message)
  {
    SubmitJob(m, e, Source, ProjectBackupComponent, map["backupId" := Str(backupId)], SnapshotErrorPrefix)
  }

  /** Step 3: restore the snapshot into the destination with the storage grant from step 1. */
  function RestoreDestinationProject(m: Migrate, e: Execution, credentials: Credentials): (r: Execution)
    ensures !e.outcome.Ok? ==> r == e
    ensures e.outcome.Ok?
            ==> && |r.trace| == |e.trace| + 1 && r.trace[..|e.trace|] == e.trace
                && var call := r.trace[|e.trace|];
                   && call.Job? && call.client == Dest && call.component == "keboola.project-restore"
                   && JobParameters(call.payload).Some?
                   && var p := JobParameters(call.payload).value;
                      && p.Keys == {"backupUri", "accessKeyId", "#secretAccessKey", "#sessionToken", "useDefaultBackend"}
                      && p["backupUri"] == Str(credentials.backupUri)
                      && p["accessKeyId"] == Str(credentials.credentials.accessKeyId)
                      && p["#secretAccessKey"] == Str(credentials.credentials.secretAccessKey)
                      && p["#sessionToken"] == Str(credentials.credentials.sessionToken)
                      && p["useDefaultBackend"] == Bool(true)
    ensures e.outcome.Ok? && r.outcome.UserError? ==> "Project restore error: " <= r.outcome.message
    ensures var reply := m.destProjectClient.jobReplies(JobsTo(e.trace, Dest));
            e.outcome.Ok? ==> (r.outcome.Ok? <==> reply.Returned? && reply.value.status == Str("success"))
    ensures var reply := m.destProjectClient.jobReplies(JobsTo(e.trace, Dest));
            e.outcome.Ok? && reply.Raised? ==> r.outcome == CollaboratorFault
    ensures var reply := m.destProjectClient.jobReplies(JobsTo(e.trace, Dest));
            e.outcome.Ok? && reply.Returned? && reply.value.status != Str("success")
            ==> r.outcome == UserError("Project restore error: " + reply.value.message)
  {
    SubmitJob(m, e, Dest, ProjectRestoreComponent,
              map[
                "backupUri" := Str(credentials.backupUri),
                "accessKeyId" := Str(credentials.credentials.accessKeyId),
                "#secretAccessKey" := Str(credentials.credentials.secretAccessKey),
                "#sessionToken" := Str(credentials.credentials.sessionToken),
                "useDefaultBackend" := Bool(true)],
              RestoreErrorPrefix)
  }

  /** The parameters shared by the last three steps: where the source project is and how to read it. */
  function SourceProjectParameters(m: Migrate): (p: Parameters)
    ensures p.Keys == {"sourceKbcUrl", "#sourceKbcToken"}
    ensures p["sourceKbcUrl"] == Str(m.sourceProjectUrl) && p["#sourceKbcToken"] == Str(m.sourceProjectToken)
  {
    map["sourceKbcUrl" := Str(m.sourceProjectUrl), "#sourceKbcToken" := Str(m.sourceProjectToken)]
  }

  /** Step 4: migrate the Snowflake writers from the source project. */
  function MigrateSnowflakeWriters(m: Migrate, e: Execution): (r: Execution)
    ensures !e.outcome.Ok? ==> r == e
    ensures e.outcome.Ok?
            ==> r.trace == e.trace + [Job(Dest, "keboola.app-snowflake-writer-migrate", JobPayload(SourceProjectParameters(m)))]
    ensures e.outcome.Ok? && r.outcome.UserError? ==> "Snowflake writers migration error: " <= r.outcome.message
    ensures var reply := m.destProjectClient.jobReplies(JobsTo(e.trace, Dest));
            e.outcome.Ok? ==> (r.outcome.Ok? <==> reply.Returned? && reply.value.status == Str("success"))
    ensures var reply := m.destProjectClient.jobReplies(JobsTo(e.trace, Dest));
            e.outcome.Ok? && reply.Raised? ==> r.outcome == CollaboratorFault
    ensures var reply := m.destProjectClient.jobReplies(JobsTo(e.trace, Dest));
            e.outcome.Ok? && reply.Returned? && reply.value.status != Str("success")
            ==> r.outcome == UserError("Snowflake writers migration error: " + reply.value.message)
  {
    SubmitJob(m, e, Dest, SnowflakeWriterMigrateComponent, SourceProjectParameters(m), SnowflakeErrorPrefix)
  }

  /** Step 5: migrate the GoodData writers from the source project. */
  function MigrateGoodDataWriters(m: Migrate, e: Execution): (r: Execution)
    ensures !e.outcome.Ok? ==> r == e
    ensures e.outcome.Ok?
            ==> r.trace == e.trace + [Job(Dest, "keboola.app-gooddata-writer-migrate", JobPayload(SourceProjectParameters(m)))]
    ensures e.outcome.Ok? && r.outcome.UserError? ==> "GoodData writers migration error: " <= r.outcome.message
    ensures var reply := m.destProjectClient.jobReplies(JobsTo(e.trace, Dest));
            e.outcome.Ok? ==> (r.outcome.Ok? <==> reply.Returned? && reply.value.status == Str("success"))
    ensures var reply := m.destProjectClient.jobReplies(JobsTo(e.trace, Dest));
            e.outcome.Ok? && reply.Raised? ==> r.outcome == CollaboratorFault
    ensures var reply := m.destProjectClient.jobReplies(JobsTo(e.trace, Dest));
            e.outcome.Ok? && reply.Returned? && reply.value.status != Str("success")
            ==> r.outcome == UserError("GoodData writers migration error: " + reply.value.message)
  {
    SubmitJob(m, e, Dest, GoodDataWriterMigrateComponent, SourceProjectParameters(m), GoodDataErrorPrefix)
  }

  /** Step 6: migrate the orchestrations from the source project. */
  function MigrateOrchestrations(m: Migrate, e: Execution): (r: Execution)
    ensures !e.outcome.Ok? ==> r == e
    ensures e.outcome.Ok?
            ==> r.trace == e.trace + [Job(Dest, "keboola.app-orchestrator-migrate", JobPayload(SourceProjectParameters(m)))]
    ensures e.outcome.Ok? && r.outcome.UserError? ==> "Orchestrations migration error: " <= r.outcome.message
    ensures var reply := m.destProjectClient.jobReplies(JobsTo(e.trace, Dest));
            e.outcome.Ok? ==> (r.outcome.Ok? <==> reply.Returned? && reply.value.status == Str("success"))
    ensures var reply := m.destProjectClient.jobReplies(JobsTo(e.trace, Dest));
            e.outcome.Ok? && reply.Raised? ==> r.outcome == CollaboratorFault
    ensures var reply := m.destProjectClient.jobReplies(JobsTo(e.trace, Dest));
            e.outcome.Ok? && reply.Returned? && reply.value.status != Str("success")
            ==> r.outcome == UserError("Orchestrations migration error: " + reply.value.message)
  {
    SubmitJob(m, e, Dest, OrchestratorMigrateComponent, SourceProjectParameters(m), OrchestrationsErrorPrefix)
  }

  /** The whole run, from an empty trace. */
  function Run(m: Migrate): (r: Execution)
    ensures 1 <= |r.trace| <= 6
    ensures r.trace[0] == SyncAction(Source, "keboola.project-backup", "generate-read-credentials",
                                     SyncPayload(map["backupId" := Null]))
    ensures r.outcome.Ok? ==> |r.trace| == 6
    ensures r.outcome == CollaboratorFault && |r.trace| == 1 <==> m.sourceProjectClient.syncReplies(0).Raised?
  {
    var (e1, credentials) := GenerateBackupCredentials(m, Execution([], Ok));
    match credentials
    case None => e1
    case Some(c) =>
      var e2 := BackupSourceProject(m, e1, c.backupId);
      var e3 := RestoreDestinationProject(m, e2, c);
      var e4 := MigrateSnowflakeWriters(m, e3);
      var e5 := MigrateGoodDataWriters(m, e4);
      MigrateOrchestrations(m, e5)
  }
}
