/**
  The job-runner capability the orchestrator is given twice, once bound to
  the source project and once to the destination project. Its transport,
  authentication and polling are not modelled: a runner is an oracle that
  answers the n-th synchronous action and the n-th job sent to it, either
  with a reply or by raising.
 */
module Runner {
  import opened Payload

  datatype Client = Source | Dest

  /** One request issued to a runner, with the exact payload sent. */
  datatype Call =
    | SyncAction(client: Client, component: string, action: string, payload: Value)
    | Job(client: Client, component: string, payload: Value)

  /** The storage access grant inside the credentials record. */
  datatype StorageKeys = StorageKeys(accessKeyId: string, secretAccessKey: string, sessionToken: string)

  /** The record returned by the `generate-read-credentials` action (region and expiration are never read). */
  datatype Credentials = Credentials(backupId: string, backupUri: string, credentials: StorageKeys)

  /** What a job submission returns once the job is terminal; `message` is `result.message`. */
  datatype JobResult = JobResult(id: string, status: Value, message: string)

  /** A runner either returns a value or raises its own fault. */
  datatype Reply<+T> = Returned(value: T) | Raised

  datatype Runner = Runner(syncReplies: nat -> Reply<Credentials>, jobReplies: nat -> Reply<JobResult>)

  /** Number of synchronous actions sent to `client` in `trace`. */
  function SyncActionsTo(trace: seq<Call>, client: Client): nat
  {
    if |trace| == 0 then 0
    else
      var last := trace[|trace| - 1];
      SyncActionsTo(trace[..|trace| - 1], client) + (if last.SyncAction? && last.client == client then 1 else 0)
  }

  /** Number of jobs submitted to `client` in `trace`. */
  function JobsTo(trace: seq<Call>, client: Client): nat
  {
    if |trace| == 0 then 0
    else
      var last := trace[|trace| - 1];
      JobsTo(trace[..|trace| - 1], client) + (if last.Job? && last.client == client then 1 else 0)
  }

  /** Number of requests of either kind sent to `client` in `trace`. */
  function CallsTo(trace: seq<Call>, client: Client): nat
  {
    SyncActionsTo(trace, client) + JobsTo(trace, client)
  }

  /** Issuing one more call raises the count of its own kind and client by one and leaves every other count alone. */
  lemma CountsAppend(trace: seq<Call>, call: Call, client: Client)
    ensures SyncActionsTo(trace + [call], client)
            == SyncActionsTo(trace, client) + (if call.SyncAction? && call.client == client then 1 else 0)
    ensures JobsTo(trace + [call], client)
            == JobsTo(trace, client) + (if call.Job? && call.client == client then 1 else 0)
  {
    assert (trace + [call])[..|trace|] == trace;
  }

  /** A trace with no request to `client` is exactly one in which every call goes to the other client. */
  lemma {:induction false} NoCallsToMeansOtherClient(trace: seq<Call>, client: Client)
    ensures CallsTo(trace, client) == 0 <==> forall i :: 0 <= i < |trace| ==> trace[i].client != client
    decreases |trace|
  {
    if |trace| > 0 {
      var init := trace[..|trace| - 1];
      NoCallsToMeansOtherClient(init, client);
      assert forall i :: 0 <= i < |init| ==> init[i] == trace[i];
    }
  }
}
