# Project migration orchestrator, modelled in Dafny

This project models `Migrate::run` of the project-migration application: the
orchestrator that migrates a data-platform project (the source) into another
project (the destination) by running a fixed six-step pipeline against two
job-runner clients, one bound to each project:

1. the `generate-read-credentials` synchronous action of `keboola.project-backup` on the source;
2. a `keboola.project-backup` job on the source, under the backup id from step 1;
3. a `keboola.project-restore` job on the destination, with the backup URI and the storage grant from step 1;
4. a `keboola.app-snowflake-writer-migrate` job on the destination;
5. a `keboola.app-gooddata-writer-migrate` job on the destination;
6. a `keboola.app-orchestrator-migrate` job on the destination.

Steps 4 to 6 all receive the source project's URL and token given at
construction. A job whose status is not exactly the string `"success"`
stops the run with a user error: a step-specific prefix followed by the
job's `result.message`.

## How it is modelled

- `payload.dfy` (`Payload`): request payloads as a tree of null, boolean,
  string and object values. It has the two envelopes: `{parameters: …}` for a
  synchronous action and `{configData: {parameters: …}}` for a job.
- `runner.dfy` (`Runner`): the client capability as an oracle. A `Runner`
  answers the n-th synchronous action and the n-th job sent to it. Each answer
  is `Returned(value)` or `Raised` (the client's own fault). The module also
  defines the requests (`Call`), the credentials record, the job result, and
  counts of the requests sent to each client.
- `migrate.dfy` (`Migrate`): the component ids, the success status, the error
  prefixes, the constructor fields (`Migrate`), one function per private
  method of the class, and `Run`. `Run` is a pure function of the two runners
  and the two configuration strings. It returns an `Execution`: the trace of
  requests issued, in order, and an outcome. The outcome is `Ok`,
  `UserError(message)` or `CollaboratorFault`.
- `properties.dfy` (`MigrateProperties`): an independent reference for a run.
  `ExpectedJob` lists the expected job requests literally, step by step. `StepReply` says which
  runner reply answers each job step. `FirstFailure` finds the first step that
  does not succeed. `RunMatchesReference` proves that `Run` equals this
  reference for every pair of runners. The remaining lemmas derive order,
  parameters, fail-fast behaviour and call counts from it.
- `scenarios.dfy` (`MigrateScenarios`): the three unit-test scenarios of the
  repository, stated as facts about `Run`.

## Model

| member | source | states |
|---|---|---|
| Migrate.SubmitJob | src/Migrate.php:77-89 | a job step after a failure changes nothing; otherwise it appends exactly the one job request for its client, component and parameters, the run goes on exactly when the client returns a job whose status is the string "success"; a raising client gives the client's fault, and any other status gives a user error that is the step's prefix followed by the job's message |
| Migrate.GenerateBackupCredentials | src/Migrate.php:60-72 | appends exactly one request, the generate-read-credentials action of keboola.project-backup on the source with backupId = null; it never gives a user error; it ends the run with the client's fault exactly when the source client raises, and otherwise hands on exactly the record the client returned |
| Migrate.BackupSourceProject | src/Migrate.php:74-91 | after a failure it changes nothing; otherwise it appends exactly a keboola.project-backup job on the source whose only parameter is the given backupId, and the step goes on exactly when the source client's job reply has status "success"; a raising client gives the client's fault, and any other returned status ends the run with "Project snapshot create error: " followed by the job's message |
| Migrate.RestoreDestinationProject | src/Migrate.php:93-114 | after a failure it changes nothing; otherwise it appends exactly one keboola.project-restore job on the destination whose parameters are exactly backupUri, accessKeyId, #secretAccessKey and #sessionToken copied from the credentials plus useDefaultBackend = true, and the step goes on exactly when the destination client's job reply has status "success"; a raising client gives the client's fault, and any other returned status ends the run with "Project restore error: " followed by the job's message |
| Migrate.MigrateSnowflakeWriters | src/Migrate.php:156-174 | after a failure it changes nothing; otherwise it appends exactly a keboola.app-snowflake-writer-migrate job on the destination with the source project's parameters, and the step goes on exactly when the destination client's job reply has status "success"; a raising client gives the client's fault, and any other returned status ends the run with "Snowflake writers migration error: " followed by the job's message |
| Migrate.MigrateGoodDataWriters | src/Migrate.php:136-154 | after a failure it changes nothing; otherwise it appends exactly a keboola.app-gooddata-writer-migrate job on the destination with the source project's parameters, and the step goes on exactly when the destination client's job reply has status "success"; a raising client gives the client's fault, and any other returned status ends the run with "GoodData writers migration error: " followed by the job's message |
| Migrate.MigrateOrchestrations | src/Migrate.php:116-134 | after a failure it changes nothing; otherwise it appends exactly a keboola.app-orchestrator-migrate job on the destination with the source project's parameters, and the step goes on exactly when the destination client's job reply has status "success"; a raising client gives the client's fault, and any other returned status ends the run with "Orchestrations migration error: " followed by the job's message |
| Migrate.Run | src/Migrate.php:49-58 | every run issues between one and six requests and starts with the credentials action; a successful run issues all six; the run ends after that single request with the client's fault exactly when the credentials action raises (the full characterisation is RunMatchesReference) |
| MigrateProperties.RunMatchesReference | src/Migrate.php:49-58 | for every pair of clients, the run issues the credentials action and then the expected jobs up to and including the first one that does not succeed; it ends with that step's failure, or normally if there is none |
| MigrateProperties.StepMatchesReference | src/Migrate.php:74-91 | a job step started after k successful steps issues the k-th expected request and is answered by the reply the client gives to its next job |
| MigrateProperties.RunShape | src/Migrate.php:49-58 | once credentials arrive, the trace is the credentials request followed by the expected jobs in order, its length is fixed by the first failing step, and the outcome is that step's failure or Ok |
| MigrateProperties.RunSucceedsIffEveryStepSucceeds | src/Migrate.php:49-58 | a run ends normally if and only if the credentials arrive and all five jobs report "success"; it then issued all six expected requests |
| MigrateProperties.SuccessfulRunOrder | src/Migrate.php:49-58 | a successful run issues, in order: the source credentials action on the backup component, a source backup job, then destination jobs for restore, Snowflake writers, GoodData writers and orchestrations |
| MigrateProperties.CredentialsRequestedFirst | src/Migrate.php:60-72 | every run starts with the credentials action with parameter backupId = null, and it is the only synchronous action issued |
| MigrateProperties.BackupUsesCredentialsBackupId | src/Migrate.php:74-86 | once credentials arrive, the backup job is issued on the source with backupId equal to the returned backupId |
| MigrateProperties.RestoreUsesCredentials | src/Migrate.php:93-109 | after a successful backup, the restore job carries exactly backupUri, accessKeyId, #secretAccessKey and #sessionToken copied from the credentials, plus useDefaultBackend = true |
| MigrateProperties.MigrationsGetSourceProject | src/Migrate.php:116-174 | every writer or orchestration migration job goes to the destination with sourceKbcUrl and #sourceKbcToken equal to the constructor's URL and token, and all such jobs carry identical parameters |
| MigrateProperties.FailFast | src/Migrate.php:87-172 | when step k is the first job with a non-success status, the run ends with step k's prefix followed by the job's message, and step k is the last request issued |
| MigrateProperties.FaultStopsRun | src/Migrate.php:49-58 | a client that raises during job step k ends the run with its fault, and no later request is issued |
| MigrateProperties.CredentialsFaultStopsRun | src/Migrate.php:60-72 | a client that raises on the credentials action ends the run after that single request |
| MigrateProperties.StepProceedsIffStatusIsSuccess | src/Migrate.php:87 | whatever status a job returns, the run goes past that step exactly when the status is the string "success" |
| MigrateProperties.CallCountsOnSuccess | tests/phpunit/MigrateTest.php:26-71 | a successful run sends exactly one synchronous action and one job to the source client, and exactly four jobs and nothing else to the destination client |
| MigrateProperties.NoDestCallsWhenBackupFails | tests/phpunit/MigrateTest.php:193-194 | when the backup does not succeed, the destination client receives no request at all |
| MigrateProperties.ErrorMessageIdentifiesStep | src/Migrate.php:87-172 | the five error prefixes are prefix-free, so a user error message determines both the failing step and the job's message |
| MigrateProperties.UserErrorComesFromFirstFailure | src/Migrate.php:49-58 | a run's user error comes from its first failing step and ends with that job's message |
| Payload.SyncPayloadRoundTrip | src/Migrate.php:66-70 | the parameters read back from a synchronous-action envelope are exactly those put in, and the envelope holds nothing else |
| Payload.JobPayloadRoundTrip | src/Migrate.php:79-85 | the parameters read back from a job envelope are exactly those put in; the envelope holds only configData, and configData holds only parameters |
| Runner.NoCallsToMeansOtherClient | tests/phpunit/MigrateTest.php:193-194 | a trace has no request to a client if and only if every request in it goes to the other client |
| MigrateScenarios.MigrateSuccessScenario | tests/phpunit/MigrateTest.php:17-139 | with the test's credentials, URL and token and all jobs succeeding, the run succeeds and issues exactly the six requests the test expects, each with its literal payload: the credentials action, the backup job with backupId "123", the restore job with the test's URI and keys, and the Snowflake, GoodData and orchestration jobs with URL "https://connection.keboola.com" and token "xyz"; the source gets one action and one job, the destination four jobs |
| MigrateScenarios.SnapshotErrorScenario | tests/phpunit/MigrateTest.php:141-206 | a backup job reporting "Cannot snapshot project" ends the run with the snapshot prefix followed by that message, and the run issued exactly the credentials action and the backup job with backupId "123" |
| MigrateScenarios.SnapshotErrorSparesDestination | tests/phpunit/MigrateTest.php:193-194 | in that scenario the destination client is never called |
| MigrateScenarios.RestoreErrorScenario | tests/phpunit/MigrateTest.php:208-277 | a restore job reporting "Cannot restore project" ends the run with the restore prefix followed by that message, after the credentials, backup and restore requests only |

## Left out

- The job-runner client's transport, authentication and polling of jobs. A client is only an oracle of replies; anything it raises is a single opaque `Raised` reply.
- The logger: the informational lines before and after each step only observe the run.
- The `region` and `expiration` fields of the credentials record, which the code never reads.
- Malformed replies. The credentials record is typed and well formed. Every job result carries a `message` string, whose value is irrelevant when the status is "success". PHP's behaviour on a missing array key, or on a non-string `backupId` under strict types, is not modelled.
- Key order inside the parameter arrays: parameters are a map, and the remote side reads them by key.
- Secret handling of `#`-prefixed keys: these are ordinary keys here.
- The exception class hierarchy: a user error is the `UserError` outcome.
- Re-running: each `Run` is one fresh run, and nothing links two runs.
- Run: its own contract states only the number of requests, the first request, the all-six count of a successful run and the credentials fault. Which jobs follow, and the fail-fast outcome, are stated about it by `MigrateProperties.RunMatchesReference`, `FailFast` and `FaultStopsRun`, because they need the independent reference to be written down.
