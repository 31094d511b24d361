/**
  The three scenarios of the repository's unit tests, with the same
  credentials, URLs, tokens and job replies, as facts about `Run`.
 */
module MigrateScenarios {
  import opened Payload
  import opened Runner
  import opened Migrate
  import opened MigrateProperties

  const BackupUri: string := "https://kbc.s3.amazonaws.com/data-takeout/us-east-1/4788/395904684/"

  const TestCredentials: Credentials := Credentials("123", BackupUri, StorageKeys("xxx", "yyy", "zzz"))

  /** A runner that gives the same reply to every action and to every job (a mocked client). */
  function Answering(sync: Reply<Credentials>, job: Reply<JobResult>): Runner
  {
    Runner(n => sync, n => job)
  }

  function JobSucceeds(): Reply<JobResult>
  {
    Returned(JobResult("222", Str("success"), ""))
  }

  function JobFails(message: string): Reply<JobResult>
  {
    Returned(JobResult("222", Str("error"), message))
  }

  /** Every request answered successfully. */
  lemma MigrateSuccessScenario()
    ensures var m := Migrate(Answering(Returned(TestCredentials), JobSucceeds()), Answering(Raised, JobSucceeds()),
                             "https://connection.keboola.com", "xyz");
            && Run(m).outcome == Ok
            && Run(m).trace[0]
               == SyncAction(Source, "keboola.project-backup", "generate-read-credentials",
                             SyncPayload(map["backupId" := Null]))
            && Run(m).trace[1] == Job(Source, "keboola.project-backup", JobPayload(map["backupId" := Str("123")]))
            && Run(m).trace[2]
               == Job(Dest, "keboola.project-restore",
                      JobPayload(map["backupUri" := Str(BackupUri), "accessKeyId" := Str("xxx"),
                                     "#secretAccessKey" := Str("yyy"), "#sessionToken" := Str("zzz"),
                                     "useDefaultBackend" := Bool(true)]))
            && Run(m).trace[3]
               == Job(Dest, "keboola.app-snowflake-writer-migrate",
                      JobPayload(map["sourceKbcUrl" := Str("https://connection.keboola.com"),
                                     "#sourceKbcToken" := Str("xyz")]))
            && Run(m).trace[4]
               == Job(Dest, "keboola.app-gooddata-writer-migrate",
                      JobPayload(map["sourceKbcUrl" := Str("https://connection.keboola.com"),
                                     "#sourceKbcToken" := Str("xyz")]))
            && Run(m).trace[5]
               == Job(Dest, "keboola.app-orchestrator-migrate",
                      JobPayload(map["sourceKbcUrl" := Str("https://connection.keboola.com"),
                                     "#sourceKbcToken" := Str("xyz")]))
            && SyncActionsTo(Run(m).trace, Source) == 1
            && JobsTo(Run(m).trace, Source) == 1
            && JobsTo(Run(m).trace, Dest) == 4
  {
    var m := Migrate(Answering(Returned(TestCredentials), JobSucceeds()), Answering(Raised, JobSucceeds()),
                     "https://connection.keboola.com", "xyz");
    RunSucceedsIffEveryStepSucceeds(m);
    IssuedUpToIndex(m, TestCredentials, StepCount);
    CallCountsOnSuccess(m);
  }

  /** The clients of the snapshot-error test: the backup job reports an error; the destination is never meant to be reached. */
  function SnapshotErrorMigrate(): Migrate
  {
    Migrate(Answering(Returned(TestCredentials), JobFails("Cannot snapshot project")), Answering(Raised, Raised), "xxx", "yyy")
  }

  /**
    The snapshot job fails: the run stops with the snapshot error, whose
    message carries the job's message, after exactly the credentials action
    and the backup job under backupId "123".
   */
  lemma SnapshotErrorScenario()
    ensures Run(SnapshotErrorMigrate()).outcome == UserError(SnapshotErrorPrefix + "Cannot snapshot project")
    ensures Run(SnapshotErrorMigrate()).trace == IssuedUpTo(SnapshotErrorMigrate(), TestCredentials, 1)
  {
    var m := SnapshotErrorMigrate();
    var job := JobResult("222", Str("error"), "Cannot snapshot project");
    assert StepReply(m, 0) == Returned(job);
    FailFast(m, 0, job);
  }

  /** The snapshot job fails: the destination client is never called. */
  lemma SnapshotErrorSparesDestination()
    ensures CallsTo(Run(SnapshotErrorMigrate()).trace, Dest) == 0
  {
    NoDestCallsWhenBackupFails(SnapshotErrorMigrate());
  }

  /** The clients of the restore-error test: every destination job reports an error. */
  function RestoreErrorMigrate(): Migrate
  {
    Migrate(Answering(Returned(TestCredentials), JobSucceeds()), Answering(Raised, JobFails("Cannot restore project")), "xxx", "yyy")
  }

  /** The restore job fails: the run stops with the restore error after three requests, the restore the only destination job. */
  lemma RestoreErrorScenario()
    ensures Run(RestoreErrorMigrate()).outcome == UserError(RestoreErrorPrefix + "Cannot restore project")
    ensures Run(RestoreErrorMigrate()).trace == IssuedUpTo(RestoreErrorMigrate(), TestCredentials, 2)
  {
    var m := RestoreErrorMigrate();
    var job := JobResult("222", Str("error"), "Cannot restore project");
    assert Succeeded(StepReply(m, 0));
    assert StepReply(m, 1) == Returned(job);
    FailFast(m, 1, job);
  }
}
