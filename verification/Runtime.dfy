/** The vocabulary of the runtime: definitions, node and run states, events
    (internal/runtime/types.go). Opaque payload data (inputs, outputs, error
    texts, the definition hash) is not represented. */
module Runtime {
  datatype Option<+T> = None | Some(value: T)

  type Time = int
  type Duration = int

  const UINT32_LIMIT := 0x1_0000_0000

  type uint32 = n: nat | n < UINT32_LIMIT

  // Go's `attempt + 1` on a uint32.
  function NextAttempt(attempt: uint32): uint32 {
    (attempt + 1) % UINT32_LIMIT
  }

  const HEARTBEAT_TIMEOUT: Duration := 150_000_000

  datatype RetryPolicy = RetryPolicy(maxAttempts: int, backoff: Duration)

  datatype NodeDef = NodeDef(
    id: string,
    activity: string,
    dependsOn: seq<string>,
    retry: Option<RetryPolicy>,
    compensation: string,
    checkpointTimeout: Duration,
    executionDeadline: Duration,
    absoluteDeadline: Duration)

  datatype WorkflowDef = WorkflowDef(name: string, nodes: seq<NodeDef>)

  datatype NodeState = Pending | Ready | Running | AwaitingApproval | Cancelled | Completed | Failed

  datatype RunState = RunRunning | RunCompensating | RunCompensated | RunCompleted | RunFailed | RunCancelled

  datatype TimerPurpose = RetryBackoff | CheckpointTimeout | ExecDeadline | AbsDeadline

  datatype Payload =
    | WorkflowStarted(def: WorkflowDef)
    | LeaseGranted(node: string, worker: string, attempt: uint32)
    | HeartbeatRecorded(node: string, worker: string, attempt: uint32)
    | LeaseExpired(node: string, worker: string, attempt: uint32)
    | CancellationRequested
    | CancellationCompleted
    | CompensationStarted
    | CompensationTaskStarted(node: string, worker: string, attempt: uint32)
    | CompensationTaskCompleted(node: string, worker: string, attempt: uint32)
    | CompensationTaskExpired(node: string, worker: string, attempt: uint32)
    | CompensationTaskFailed(node: string, worker: string, attempt: uint32)
    | CompensationCompleted
    | TimerScheduled(timer: string, node: string, attempt: uint32, purpose: TimerPurpose, fireAt: Time)
    | TimerFired(timer: string, node: string, attempt: uint32, purpose: TimerPurpose)
    | CheckpointReached(node: string, worker: string, attempt: uint32)
    | CheckpointApproved(node: string)
    | NodeReady(node: string)
    | NodeStarted(node: string, worker: string, attempt: uint32)
    | NodeCancelled(node: string, worker: string, attempt: uint32)
    | NodeCompleted(node: string, worker: string, attempt: uint32, spawned: seq<NodeDef>)
    | NodeFailed(node: string, worker: string, attempt: uint32, retryable: bool, timedOut: bool)
    | WorkflowFailed
    | WorkflowCompleted

  datatype Event = Event(seqNo: nat, runId: string, timestamp: Time, payload: Payload)
}
