/**
  What a migration run does, stated independently of how `Run` is built:
  the literal list of requests a run issues, which reply of which runner
  answers each job step, and the first step that does not succeed. The
  central lemma `RunMatchesReference` shows that `Run` is exactly this
  reference on every pair of runners; the remaining lemmas read the
  individual promises (order, parameters, fail-fast, call counts) off it.
  The parameter maps and component ids are written out again here on
  purpose rather than taken from `Migrate`, so that the reference does not
  share a definition with the code it is compared against.
 */
module MigrateProperties {
  import opened Wrappers
  import opened Payload
  import opened Runner
  import opened Migrate

  /** The first request of every run. */
  const CredentialsRequest: Call :=
    SyncAction(Source, "keboola.project-backup", "generate-read-credentials",
               Obj(map["parameters" := Obj(map["backupId" := Null])]))

  /** The number of job steps after the credentials request. */
  const StepCount: nat := 5

  /** The parameters of the restore job: the storage grant of `c` and the default-backend flag. */
  function RestoreParameters(c: Credentials): Parameters
  {
    map[
      "backupUri" := Str(c.backupUri),
      "accessKeyId" := Str(c.credentials.accessKeyId),
      "#secretAccessKey" := Str(c.credentials.secretAccessKey),
      "#sessionToken" := Str(c.credentials.sessionToken),
      "useDefaultBackend" := Bool(true)]
  }

  /** The parameters of the three migration jobs: the source project's URL and token. */
  function SourceParameters(m: Migrate): Parameters
  {
    map["sourceKbcUrl" := Str(m.sourceProjectUrl), "#sourceKbcToken" := Str(m.sourceProjectToken)]
  }

  /** Job step `k` of a run given the credentials record `c`. */
  function ExpectedJob(m: Migrate, c: Credentials, k: nat): (call: Call)
    requires k < StepCount
    ensures call.Job? && call.client == (if k == 0 then Source else Dest)
  {
    match k
    case 0 => Job(Source, "keboola.project-backup", JobPayload(map["backupId" := Str(c.backupId)]))
    case 1 => Job(Dest, "keboola.project-restore", JobPayload(RestoreParameters(c)))
    case 2 => Job(Dest, "keboola.app-snowflake-writer-migrate", JobPayload(SourceParameters(m)))
    case 3 => Job(Dest, "keboola.app-gooddata-writer-migrate", JobPayload(SourceParameters(m)))
    case 4 => Job(Dest, "keboola.app-orchestrator-migrate", JobPayload(SourceParameters(m)))
  }

  /** The requests issued by a run that got as far as `i` job steps. */
  function IssuedUpTo(m: Migrate, c: Credentials, i: nat): (trace: seq<Call>)
    requires i <= StepCount
    ensures |trace| == i + 1
  {
    if i == 0 then [CredentialsRequest] else IssuedUpTo(m, c, i - 1) + [ExpectedJob(m, c, i - 1)]
  }

  /** What stands where in those requests. */
  lemma {:induction false} IssuedUpToIndex(m: Migrate, c: Credentials, i: nat)
    requires i <= StepCount
    ensures IssuedUpTo(m, c, i)[0] == CredentialsRequest
    ensures forall j :: 0 <= j < i ==> IssuedUpTo(m, c, i)[j + 1] == ExpectedJob(m, c, j)
  {
    if i > 0 {
      IssuedUpToIndex(m, c, i - 1);
    }
  }

  /**
    The reply that answers job step `k`: the backup is the source runner's
    first job, and the restore and the three migrations are the destination
    runner's first to fourth jobs.
   */
  function StepReply(m: Migrate, k: nat): Reply<JobResult>
    requires k < StepCount
  {
    if k == 0 then m.sourceProjectClient.jobReplies(0) else m.destProjectClient.jobReplies(k - 1)
  }

  /** The message prefix of the user error raised when job step `k` does not succeed. */
  function ErrorPrefix(k: nat): string
    requires k < StepCount
  {
    match k
    case 0 => "Project snapshot create error: "
    case 1 => "Project restore error: "
    case 2 => "Snowflake writers migration error: "
    case 3 => "GoodData writers migration error: "
    case 4 => "Orchestrations migration error: "
  }

  predicate Succeeded(reply: Reply<JobResult>)
  {
    reply.Returned? && reply.value.status == Str("success")
  }

  /** How the run ends when job step `k` is the one that does not succeed. */
  function StepFailure(m: Migrate, k: nat): Outcome
    requires k < StepCount
  {
    match StepReply(m, k)
    case Raised => CollaboratorFault
    case Returned(job) => UserError(ErrorPrefix(k) + job.message)
  }

  /** The first job step at or after `k` that does not succeed, or `StepCount` when there is none. */
  function FirstFailureFrom(m: Migrate, k: nat): (f: nat)
    requires k <= StepCount
    ensures k <= f <= StepCount
    ensures forall j :: k <= j < f ==> Succeeded(StepReply(m, j))
    ensures f < StepCount ==> !Succeeded(StepReply(m, f))
    decreases StepCount - k
  {
    if k == StepCount || !Succeeded(StepReply(m, k)) then k else FirstFailureFrom(m, k + 1)
  }

  function FirstFailure(m: Migrate): (f: nat)
    ensures f <= StepCount
  {
    FirstFailureFrom(m, 0)
  }

  /** The run as the reference describes it. */
  function Reference(m: Migrate): Execution
  {
    match m.sourceProjectClient.syncReplies(0)
    case Raised => Execution([CredentialsRequest], CollaboratorFault)
    case Returned(c) =>
      var f := FirstFailure(m);
      if f < StepCount then Execution(IssuedUpTo(m, c, f + 1), StepFailure(m, f))
      else Execution(IssuedUpTo(m, c, StepCount), Ok)
  }

  /** Job counts per runner in the requests of a run that got as far as `i` job steps. */
  lemma {:induction false} IssuedUpToCounts(m: Migrate, c: Credentials, i: nat)
    requires i <= StepCount
    ensures SyncActionsTo(IssuedUpTo(m, c, i), Source) == 1
    ensures SyncActionsTo(IssuedUpTo(m, c, i), Dest) == 0
    ensures JobsTo(IssuedUpTo(m, c, i), Source) == (if i == 0 then 0 else 1)
    ensures JobsTo(IssuedUpTo(m, c, i), Dest) == (if i == 0 then 0 else i - 1)
  {
    if i == 0 {
      assert IssuedUpTo(m, c, 0) == [] + [CredentialsRequest];
      CountsAppend([], CredentialsRequest, Source);
      CountsAppend([], CredentialsRequest, Dest);
    } else {
      var before := IssuedUpTo(m, c, i - 1);
      var call := ExpectedJob(m, c, i - 1);
      assert IssuedUpTo(m, c, i) == before + [call];
      assert call.Job? && call.client == (if i == 1 then Source else Dest);
      IssuedUpToCounts(m, c, i - 1);
      CountsAppend(before, call, Source);
      CountsAppend(before, call, Dest);
    }
  }

  /**
    One job step, started after `k` successful job steps, issues the k-th
    expected request, consults the reply the reference names and either
    goes on or ends the run with that step's failure.
   */
  lemma StepMatchesReference(m: Migrate, c: Credentials, k: nat, client: Client, component: string,
                             parameters: Parameters, errorPrefix: string)
    requires k < StepCount
    requires ExpectedJob(m, c, k) == Job(client, component, JobPayload(parameters))
    requires errorPrefix == ErrorPrefix(k)
    ensures SubmitJob(m, Execution(IssuedUpTo(m, c, k), Ok), client, component, parameters, errorPrefix)
            == Execution(IssuedUpTo(m, c, k + 1), if Succeeded(StepReply(m, k)) then Ok else StepFailure(m, k))
  {
    IssuedUpToCounts(m, c, k);
    JobPayloadRoundTrip(parameters);
  }

  /** `Run` is the reference run, for every pair of runners and every configuration. */
  lemma RunMatchesReference(m: Migrate)
    ensures Run(m) == Reference(m)
  {
    var start := Execution([], Ok);
    assert SyncActionsTo(start.trace, Source) == 0;
    match m.sourceProjectClient.syncReplies(0)
    case Raised =>
    case Returned(c) =>
      var e1 := Execution(IssuedUpTo(m, c, 0), Ok);
      assert IssuedUpTo(m, c, 0) == start.trace + [CredentialsRequest];
      assert GenerateBackupCredentials(m, start) == (e1, Some(c));
      var source := SourceProjectParameters(m);
      var restore := RestoreParameters(c);
      var e2 := BackupSourceProject(m, e1, c.backupId);
      var e3 := RestoreDestinationProject(m, e2, c);
      var e4 := MigrateSnowflakeWriters(m, e3);
      var e5 := MigrateGoodDataWriters(m, e4);
      var e6 := MigrateOrchestrations(m, e5);
      assert Run(m) == e6;
      StepMatchesReference(m, c, 0, Source, ProjectBackupComponent, map["backupId" := Str(c.backupId)], SnapshotErrorPrefix);
      if !Succeeded(StepReply(m, 0)) {
        assert FirstFailure(m) == 0 && e6 == e2;
        return;
      }
      StepMatchesReference(m, c, 1, Dest, ProjectRestoreComponent, restore, RestoreErrorPrefix);
      if !Succeeded(StepReply(m, 1)) {
        assert FirstFailure(m) == 1 && e6 == e3;
        return;
      }
      StepMatchesReference(m, c, 2, Dest, SnowflakeWriterMigrateComponent, source, SnowflakeErrorPrefix);
      if !Succeeded(StepReply(m, 2)) {
        assert FirstFailure(m) == 2 && e6 == e4;
        return;
      }
      StepMatchesReference(m, c, 3, Dest, GoodDataWriterMigrateComponent, source, GoodDataErrorPrefix);
      if !Succeeded(StepReply(m, 3)) {
        assert FirstFailure(m) == 3 && e6 == e5;
        return;
      }
      StepMatchesReference(m, c, 4, Dest, OrchestratorMigrateComponent, source, OrchestrationsErrorPrefix);
      assert FirstFailure(m) == (if Succeeded(StepReply(m, 4)) then StepCount else 4);
  }

  /**
    The shape of a run once the credentials arrive: the credentials request,
    then the expected jobs up to the first one that does not succeed.
   */
  lemma RunShape(m: Migrate, c: Credentials)
    requires m.sourceProjectClient.syncReplies(0) == Returned(c)
    ensures var f := FirstFailure(m);
            |Run(m).trace| == (if f < StepCount then f + 2 else StepCount + 1)
    ensures Run(m).trace[0] == CredentialsRequest
    ensures forall j :: 0 <= j < |Run(m).trace| - 1 ==> Run(m).trace[j + 1] == ExpectedJob(m, c, j)
    ensures var f := FirstFailure(m);
            Run(m).outcome == (if f < StepCount then StepFailure(m, f) else Ok)
  {
    RunMatchesReference(m);
    var f := FirstFailure(m);
    IssuedUpToIndex(m, c, if f < StepCount then f + 1 else StepCount);
  }

  /** A run ends normally exactly when the credentials come back and all five jobs report "success"; it then issued every expected request. */
  lemma RunSucceedsIffEveryStepSucceeds(m: Migrate)
    ensures Run(m).outcome == Ok
            <==> m.sourceProjectClient.syncReplies(0).Returned?
                 && forall k :: 0 <= k < StepCount ==> Succeeded(StepReply(m, k))
    ensures Run(m).outcome == Ok
            ==> Run(m).trace == IssuedUpTo(m, m.sourceProjectClient.syncReplies(0).value, StepCount)
  {
    RunMatchesReference(m);
    ReferenceSucceedsIffEveryStepSucceeds(m);
  }

  /** The same fact about the reference alone. */
  lemma ReferenceSucceedsIffEveryStepSucceeds(m: Migrate)
    ensures Reference(m).outcome == Ok
            <==> m.sourceProjectClient.syncReplies(0).Returned?
                 && forall k :: 0 <= k < StepCount ==> Succeeded(StepReply(m, k))
    ensures Reference(m).outcome == Ok
            ==> Reference(m).trace == IssuedUpTo(m, m.sourceProjectClient.syncReplies(0).value, StepCount)
  {
    if m.sourceProjectClient.syncReplies(0).Returned? {
      var f := FirstFailure(m);
      if f < StepCount {
        assert !Succeeded(StepReply(m, f));
        assert StepFailure(m, f) != Ok;
      }
    }
  }

  /** The order of a successful run: which runner, which kind of request and which component, step by step. */
  lemma SuccessfulRunOrder(m: Migrate)
    requires Run(m).outcome == Ok
    ensures var t := Run(m).trace;
            && |t| == 6
            && t[0].SyncAction? && t[0].client == Source && t[0].component == "keboola.project-backup"
            && t[0].action == "generate-read-credentials"
            && t[1].Job? && t[1].client == Source && t[1].component == "keboola.project-backup"
            && t[2].Job? && t[2].client == Dest && t[2].component == "keboola.project-restore"
            && t[3].Job? && t[3].client == Dest && t[3].component == "keboola.app-snowflake-writer-migrate"
            && t[4].Job? && t[4].client == Dest && t[4].component == "keboola.app-gooddata-writer-migrate"
            && t[5].Job? && t[5].client == Dest && t[5].component == "keboola.app-orchestrator-migrate"
  {
    RunSucceedsIffEveryStepSucceeds(m);
    var c := m.sourceProjectClient.syncReplies(0).value;
    RunShape(m, c);
    var t := Run(m).trace;
    assert t[1] == ExpectedJob(m, c, 0);
    assert t[2] == ExpectedJob(m, c, 1);
    assert t[3] == ExpectedJob(m, c, 2);
    assert t[4] == ExpectedJob(m, c, 3);
    assert t[5] == ExpectedJob(m, c, 4);
  }

  /** Every run starts with the credentials action, asked with `backupId = null`, and issues no other synchronous action. */
  lemma CredentialsRequestedFirst(m: Migrate)
    ensures var t := Run(m).trace;
            && |t| >= 1
            && t[0] == SyncAction(Source, "keboola.project-backup", "generate-read-credentials", t[0].payload)
            && SyncParameters(t[0].payload) == Some(map["backupId" := Null])
            && (forall i :: 1 <= i < |t| ==> t[i].Job?)
  {
    SyncPayloadRoundTrip(map["backupId" := Null]);
    match m.sourceProjectClient.syncReplies(0)
    case Raised =>
      CredentialsFaultStopsRun(m);
    case Returned(c) =>
      RunShape(m, c);
      var t := Run(m).trace;
      forall i | 1 <= i < |t|
        ensures t[i].Job?
      {
        assert t[(i - 1) + 1] == ExpectedJob(m, c, i - 1);
      }
  }

  /** The backup job is always issued once the credentials arrive, with their `backupId` verbatim. */
  lemma BackupUsesCredentialsBackupId(m: Migrate, c: Credentials)
    requires m.sourceProjectClient.syncReplies(0) == Returned(c)
    ensures var t := Run(m).trace;
            && |t| >= 2
            && t[1] == Job(Source, "keboola.project-backup", t[1].payload)
            && JobParameters(t[1].payload) == Some(map["backupId" := Str(c.backupId)])
  {
    RunShape(m, c);
    assert Run(m).trace[0 + 1] == ExpectedJob(m, c, 0);
    JobPayloadRoundTrip(map["backupId" := Str(c.backupId)]);
  }

  /** The restore parameters are exactly the five named keys. */
  lemma RestoreParameterKeys(c: Credentials)
    ensures RestoreParameters(c).Keys == {"backupUri", "accessKeyId", "#secretAccessKey", "#sessionToken", "useDefaultBackend"}
  {
  }

  /**
    Once the backup succeeds, the restore job is issued to the destination
    with the storage grant copied from the credentials, the default-backend
    flag, and no other parameter.
   */
  lemma RestoreUsesCredentials(m: Migrate, c: Credentials)
    requires m.sourceProjectClient.syncReplies(0) == Returned(c)
    requires Succeeded(StepReply(m, 0))
    ensures var t := Run(m).trace;
            && |t| >= 3
            && t[2] == Job(Dest, "keboola.project-restore", t[2].payload)
            && JobParameters(t[2].payload).Some?
            && var p := JobParameters(t[2].payload).value;
               && p.Keys == {"backupUri", "accessKeyId", "#secretAccessKey", "#sessionToken", "useDefaultBackend"}
               && p["backupUri"] == Str(c.backupUri)
               && p["accessKeyId"] == Str(c.credentials.accessKeyId)
               && p["#secretAccessKey"] == Str(c.credentials.secretAccessKey)
               && p["#sessionToken"] == Str(c.credentials.sessionToken)
               && p["useDefaultBackend"] == Bool(true)
  {
    RunShape(m, c);
    assert FirstFailure(m) >= 1;
    assert Run(m).trace[1 + 1] == ExpectedJob(m, c, 1);
    JobPayloadRoundTrip(RestoreParameters(c));
    RestoreParameterKeys(c);
  }

  /** A trace that follows the reference carries, from position 3 on, only migration jobs with the source project's parameters. */
  lemma ReferenceMigrationJobs(m: Migrate, c: Credentials, t: seq<Call>)
    requires |t| <= StepCount + 1
    requires forall j :: 0 <= j < |t| - 1 ==> t[j + 1] == ExpectedJob(m, c, j)
    ensures forall i :: 3 <= i < |t| ==>
              && t[i].Job? && t[i].client == Dest
              && JobParameters(t[i].payload)
                 == Some(map["sourceKbcUrl" := Str(m.sourceProjectUrl), "#sourceKbcToken" := Str(m.sourceProjectToken)])
    ensures forall i, j :: 3 <= i < |t| && 3 <= j < |t| ==> t[i].payload == t[j].payload
  {
    JobPayloadRoundTrip(SourceParameters(m));
    forall i | 3 <= i < |t|
      ensures t[i] == Job(Dest, t[i].component, JobPayload(SourceParameters(m)))
    {
      assert t[(i - 1) + 1] == ExpectedJob(m, c, i - 1);
    }
  }

  /**
    Every writer or orchestration migration job the run issues goes to the
    destination with the source project's URL and token from construction,
    and all of them carry the same parameters.
   */
  lemma MigrationsGetSourceProject(m: Migrate)
    ensures var t := Run(m).trace;
            forall i :: 3 <= i < |t| ==>
              && t[i].Job? && t[i].client == Dest
              && JobParameters(t[i].payload)
                 == Some(map["sourceKbcUrl" := Str(m.sourceProjectUrl), "#sourceKbcToken" := Str(m.sourceProjectToken)])
    ensures var t := Run(m).trace;
            forall i, j :: 3 <= i < |t| && 3 <= j < |t| ==> t[i].payload == t[j].payload
  {
    var t := Run(m).trace;
    match m.sourceProjectClient.syncReplies(0)
    case Raised =>
      CredentialsFaultStopsRun(m);
    case Returned(c) =>
      assert |t| <= StepCount + 1 && forall j :: 0 <= j < |t| - 1 ==> t[j + 1] == ExpectedJob(m, c, j) by {
        RunShape(m, c);
      }
      ReferenceMigrationJobs(m, c, t);
  }

  /**
    Fail-fast: when job step `k` is the first whose job finishes with a
    status other than "success", the run ends with that step's prefix
    followed by the job's message, and step `k` is the last request issued.
   */
  lemma FailFast(m: Migrate, k: nat, job: JobResult)
    requires k < StepCount
    requires m.sourceProjectClient.syncReplies(0).Returned?
    requires forall j :: 0 <= j < k ==> Succeeded(StepReply(m, j))
    requires StepReply(m, k) == Returned(job) && job.status != Str("success")
    ensures Run(m).outcome == UserError(ErrorPrefix(k) + job.message)
    ensures Run(m).trace == IssuedUpTo(m, m.sourceProjectClient.syncReplies(0).value, k + 1)
  {
    RunMatchesReference(m);
    assert FirstFailure(m) == k;
  }

  /** A runner that raises while step `k` runs ends the run with its fault, and nothing after step `k` is issued. */
  lemma FaultStopsRun(m: Migrate, k: nat)
    requires k < StepCount
    requires m.sourceProjectClient.syncReplies(0).Returned?
    requires forall j :: 0 <= j < k ==> Succeeded(StepReply(m, j))
    requires StepReply(m, k).Raised?
    ensures Run(m).outcome == CollaboratorFault
    ensures Run(m).trace == IssuedUpTo(m, m.sourceProjectClient.syncReplies(0).value, k + 1)
  {
    RunMatchesReference(m);
    assert FirstFailure(m) == k;
  }

  /** A raised credentials action is the whole run: one request, then the runner's fault. */
  lemma CredentialsFaultStopsRun(m: Migrate)
    requires m.sourceProjectClient.syncReplies(0).Raised?
    ensures Run(m) == Execution([CredentialsRequest], CollaboratorFault)
  {
    RunMatchesReference(m);
  }

  /** Whatever status a job reports, the run goes past that step exactly when the status is the string "success". */
  lemma StepProceedsIffStatusIsSuccess(m: Migrate, k: nat)
    requires k < StepCount
    requires m.sourceProjectClient.syncReplies(0).Returned?
    requires forall j :: 0 <= j < k ==> Succeeded(StepReply(m, j))
    requires StepReply(m, k).Returned?
    ensures StepReply(m, k).value.status == Str("success")
            <==> (|Run(m).trace| > k + 2 || Run(m).outcome == Ok)
  {
    RunShape(m, m.sourceProjectClient.syncReplies(0).value);
    var f := FirstFailure(m);
    if StepReply(m, k).value.status == Str("success") {
      assert f > k;
    } else {
      assert f == k;
    }
  }

  /** A successful run sent one action and one job to the source runner and four jobs, and nothing else, to the destination. */
  lemma CallCountsOnSuccess(m: Migrate)
    requires Run(m).outcome == Ok
    ensures SyncActionsTo(Run(m).trace, Source) == 1
    ensures JobsTo(Run(m).trace, Source) == 1
    ensures SyncActionsTo(Run(m).trace, Dest) == 0
    ensures JobsTo(Run(m).trace, Dest) == 4
  {
    RunSucceedsIffEveryStepSucceeds(m);
    IssuedUpToCounts(m, m.sourceProjectClient.syncReplies(0).value, StepCount);
  }

  /** The destination runner is never called when the backup does not succeed. */
  lemma NoDestCallsWhenBackupFails(m: Migrate)
    requires !Succeeded(StepReply(m, 0))
    ensures CallsTo(Run(m).trace, Dest) == 0
    ensures forall i :: 0 <= i < |Run(m).trace| ==> Run(m).trace[i].client == Source
  {
    match m.sourceProjectClient.syncReplies(0)
    case Raised =>
      CredentialsFaultStopsRun(m);
      assert Run(m).trace == [] + [CredentialsRequest];
      CountsAppend([], CredentialsRequest, Dest);
    case Returned(c) =>
      assert Run(m).trace == IssuedUpTo(m, c, 1) by {
        RunMatchesReference(m);
        assert FirstFailure(m) == 0;
      }
      IssuedUpToCounts(m, c, 1);
    NoCallsToMeansOtherClient(Run(m).trace, Dest);
  }

  /** No error prefix is a prefix of another. */
  lemma ErrorPrefixesDiffer(k1: nat, k2: nat)
    requires k1 < StepCount && k2 < StepCount && k1 != k2
    ensures !(ErrorPrefix(k1) <= ErrorPrefix(k2))
  {
    if k1 <= 1 && k2 <= 1 {
      assert ErrorPrefix(0)[8] == 's' && ErrorPrefix(1)[8] == 'r';
    } else {
      assert ErrorPrefix(0)[0] == 'P' && ErrorPrefix(1)[0] == 'P';
      assert ErrorPrefix(2)[0] == 'S' && ErrorPrefix(3)[0] == 'G' && ErrorPrefix(4)[0] == 'O';
    }
  }

  /** A user error's message names the step that failed and the job's message, without ambiguity. */
  lemma ErrorMessageIdentifiesStep(k1: nat, msg1: string, k2: nat, msg2: string)
    requires k1 < StepCount && k2 < StepCount
    requires ErrorPrefix(k1) + msg1 == ErrorPrefix(k2) + msg2
    ensures k1 == k2 && msg1 == msg2
  {
    var s := ErrorPrefix(k1) + msg1;
    if k1 != k2 {
      assert ErrorPrefix(k1) <= s && ErrorPrefix(k2) <= s;
      if |ErrorPrefix(k1)| <= |ErrorPrefix(k2)| {
        assert ErrorPrefix(k1) <= ErrorPrefix(k2);
        ErrorPrefixesDiffer(k1, k2);
      } else {
        assert ErrorPrefix(k2) <= ErrorPrefix(k1);
        ErrorPrefixesDiffer(k2, k1);
      }
    } else {
      assert msg1 == s[|ErrorPrefix(k1)|..];
    }
  }

  /** A user error from a run comes from its first failing step and ends with that job's message. */
  lemma UserErrorComesFromFirstFailure(m: Migrate)
    requires Run(m).outcome.UserError?
    ensures FirstFailure(m) < StepCount
    ensures StepReply(m, FirstFailure(m)).Returned?
    ensures Run(m).outcome.message == ErrorPrefix(FirstFailure(m)) + StepReply(m, FirstFailure(m)).value.message
  {
    RunMatchesReference(m);
  }
}
