/** The part of the model Router that an audited report relies on: a task with its
    current execution segment, and what an observation of it records. */
module ReportTasks {
  import opened Collections
  import opened ReportRecords

  type Rc = x: int | INT_MIN <= x <= INT_MAX
  type Err = x: int | INT_MIN <= x <= INT_MAX && x != 0 witness -1

  const OK: Rc := 0
  const EINVAL: Err := -1
  const EPROTO: Err := -2
  const EIO: Err := -3
  const EPERM: Err := -4
  const ECANCELED: Err := -5
  const ERANGE: Err := -6
  const ENOBUFS: Err := -7
  const ETIMEDOUT: Err := -8

  /** An atomic create: acknowledged, committed without acknowledgement, or not committed. */
  datatype Answer = Ack | Lost(code: Err) | Refused(code: Err)

  /** One execution segment; `pending` is the Router's pending-review flag at its end. */
  datatype Segment =
    | Running
    | Ended(status: int, code: Rc, pending: bool, runId: Option<string>, checkpointId: Option<string>,
            runtimeStatus: Option<RuntimeStatus>, failureKind: Option<string>)

  predicate Terminal(s: Segment) {
    s.Ended? && COMPLETED <= s.status <= FAILED
  }

  datatype Task = Task(admissionId: string, taskId: string, executionId: string, route: Route, segment: Segment,
                       resumes: nat, taken: bool, unresponsive: bool, authorityCurrent: bool, reviewCancelled: bool)

  predicate ApprovalPending(t: Task) {
    && t.route.maxTurns != 0 && t.segment.Ended? && t.segment.status == INTERRUPTED
    && t.segment.pending && !t.reviewCancelled
  }

  function ObservationOf(t: Task, id: string): Observation
    requires t.segment.Ended?
  {
    var s := t.segment;
    Observation(id, t.taskId, t.executionId, t.route, s.status, s.code, s.runId, s.checkpointId, s.runtimeStatus,
                s.failureKind, t.unresponsive, t.authorityCurrent, ApprovalPending(t), t.resumes)
  }

  /** Cancellation only clears a review that is already waiting; a running segment is
      asked to stop and may still end in any way. Then the Host waits for the end. */
  function Drain(t: Task, end: Segment): (r: Task)
    requires t.segment.Ended? || end.Ended?
    ensures r.segment.Ended?
  {
    if t.segment.Running? then t.(segment := end)
    else if t.route.maxTurns != 0 && t.segment.status == INTERRUPTED && t.segment.pending
      then t.(reviewCancelled := true)
    else t
  }

  /** After the drain an approval is left pending exactly when the segment was still
      running at the cancel and then ended interrupted, waiting for a review, with no
      rejection under way. */
  lemma DrainLeavesApproval(t: Task, end: Segment)
    requires t.segment.Ended? || end.Ended?
    ensures ApprovalPending(Drain(t, end)) <==>
      && t.segment.Running? && t.route.maxTurns != 0 && !t.reviewCancelled
      && end.status == INTERRUPTED && end.pending
  {
  }

  /** What a create leaves behind and returns. */
  function Commit(log: seq<Write>, w: Write, valid: bool, answer: Answer): (seq<Write>, Rc) {
    if !valid then (log, EPROTO)
    else match answer
      case Ack => (log + [w], OK)
      case Lost(code) => (log + [w], code)
      case Refused(code) => (log, code)
  }
}
