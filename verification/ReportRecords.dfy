/** The Host audit records of one report and the validation that the Router applies
    to its own records, both before it creates one and when it loads one. */
module ReportRecords {
  import opened Collections
  import opened ReportKeys

  const COMPLETED := 2
  const INTERRUPTED := 3
  const FAILED := 6
  const MAX_EXACT := 9007199254740991
  const MAX_TIMEOUT_MS := 86400000
  const INT_MIN := -0x8000_0000
  const INT_MAX := 0x7fff_ffff

  // Closed vocabularies of text fields; the last case stands for every other text.
  datatype Phase = Admission | Manifesting | Workers | Aggregation | Execution | Approval | Delivery
                 | DeliveryAudit | OtherPhase
  datatype Role = WorkerA | WorkerB | Aggregate | Execute | OtherRole
  datatype RouteRole = Plan | Run | OtherRouteRole
  datatype Decision = Approve | Reject | OtherDecision
  datatype Boundary = BeforeTransfer | AfterDrain | OtherBoundary
  datatype Semantics = ManifestSemantics | ReadySemantics | StopSemantics | GateSemantics | CleanupSemantics
                     | OtherSemantics
  datatype Clock = OriginMonotonic | OtherClock
  datatype Verification = ReferenceIdentityOnly | OtherVerification
  datatype RuntimeStatus = RunCompleted | RunInterrupted | RunCancelled | RunTimedOut | OtherStatus
  datatype GateOutcome = Unresolved | NotAttempted | OtherOutcome

  datatype Route = Route(endpoint: string, model: string, provider: string, role: RouteRole,
                         threadId: string, parentRunId: string, maxTurns: int)

  datatype Intent = Intent(admissionId: string, taskId: string, route: Route)

  datatype Observation = Observation(
    observationId: string, taskId: string, executionId: string, route: Route, status: int, code: int,
    runId: Option<string>, checkpointId: Option<string>, runtimeStatus: Option<RuntimeStatus>,
    failureKind: Option<string>, unresponsive: bool, authorityCurrent: bool, approvalPending: bool, resumes: int)

  datatype Group = Group(observationId: string, groupId: string, parentRunId: string, aggregation: bool,
                         members: seq<Observation>)

  datatype Review = Review(
    reviewId: string, taskId: string, executionId: string, previousExecutionId: string,
    admissionId: Option<string>, endpoint: string, model: string, provider: string, threadId: string,
    parentRunId: string, sourceRunId: string, sourceCheckpointId: string, decision: Decision,
    segment: int, maxTurns: int)

  datatype Header = Header(schema: int, semantics: Semantics, reportId: string, parentRunId: string, clock: Clock)

  datatype Manifest = Manifest(header: Header, started: int, deadline: int, phaseIds: seq<(string, string)>)

  datatype Ready = Ready(schema: int, reportId: string, semantics: Semantics, taskId: string, executionId: string,
                         runId: string, terminalObservationId: string, verification: Verification)

  datatype StopEntry = StopEntry(
    role: Role, observationId: string, boundary: Boundary, taskId: string, executionId: string, threadId: string,
    status: int, code: int, unresponsive: bool, taken: bool, approvalPending: bool)

  datatype Stop = Stop(header: Header, phase: Phase, code: int, observed: int, tasks: seq<StopEntry>,
                       gates: seq<string>)

  /** Version 1 (an error at a normal gate) and version 2 (an error of the cleanup audit). */
  datatype Failure =
    | GateFailure(header: Header, phase: Phase, gateId: string, gateCode: int, outcome: GateOutcome,
                  observed: int, gates: seq<string>)
    | CleanupFailure(header: Header, phase: Phase, operation: int, gate: Option<string>, gateCode: int,
                     outcome: GateOutcome, observed: int, gates: seq<string>, cleaned: seq<string>)

  /** Any stored value; `Foreign` is one that no loader of this protocol recognises. */
  datatype Record =
    | ManifestRecord(manifest: Manifest) | IntentRecord(intent: Intent) | ObservationRecord(obs: Observation)
    | GroupRecord(group: Group) | ReviewRecord(review: Review) | ReadyRecord(ready: Ready)
    | StopRecord(stop: Stop) | FailureRecord(failure: Failure) | Foreign

  /** What the store holds for one report: the manifest and the sixteen phase records. */
  datatype View = View(manifest: Option<Record>, p: seq<Option<Record>>) {
    predicate Valid() { |p| == 16 }
  }

  const EMPTY_VIEW := View(None, [
    None, None, None, None, None, None, None, None, None, None, None, None, None, None, None, None])

  /** One committed create; no slot means the manifest. */
  datatype Write = Write(slot: Option<nat>, record: Record)

  predicate ValidWrite(w: Write) {
    w.slot.Some? ==> w.slot.value < 16
  }

  function Apply(v: View, w: Write): (r: View)
    requires v.Valid() && ValidWrite(w)
    ensures r.Valid()
  {
    if w.slot.None? then v.(manifest := Some(w.record)) else v.(p := v.p[w.slot.value := Some(w.record)])
  }

  predicate ValidLog(log: seq<Write>) {
    forall i :: 0 <= i < |log| ==> ValidWrite(log[i])
  }

  function ViewOf(log: seq<Write>): (r: View)
    requires ValidLog(log)
    ensures r.Valid()
  {
    if log == [] then EMPTY_VIEW else Apply(ViewOf(log[..|log| - 1]), log[|log| - 1])
  }

  // ----- Router validation -----

  predicate Text(s: string, max: nat) { 1 <= |s| <= max }

  predicate NullableText(s: Option<string>, max: nat) { s.Some? ==> Text(s.value, max) }

  /** The identifiers that the Router accepts in its own records. */
  predicate RouterId(s: string) {
    Text(s, 64) && IdText(s)
  }

  predicate RouteValid(r: Route) {
    && RouterId(r.endpoint) && RouterId(r.threadId) && Text(r.parentRunId, 128)
    && Text(r.model, 1024) && Text(r.provider, 1024)
    && !r.role.OtherRouteRole?
    && (r.maxTurns == 0 || 2 <= r.maxTurns <= 16)
  }

  predicate IntentValid(i: Intent, id: string) {
    && i.admissionId == id && RouterId(i.admissionId) && RouterId(i.taskId) && RouteValid(i.route)
    && (i.route.maxTurns != 0 ==> i.route.role.Run?)
  }

  function RuntimeStatusOf(status: int): RuntimeStatus {
    if status == COMPLETED then RunCompleted else if status == INTERRUPTED then RunInterrupted
    else if status == 4 then RunCancelled else RunTimedOut
  }

  predicate OpenShape(o: Observation) {
    && !o.approvalPending && o.runId.None? && o.checkpointId.None? && o.runtimeStatus.None? && o.failureKind.None?
  }

  predicate EndedShape(o: Observation) {
    && INT_MIN <= o.code <= INT_MAX
    && (o.code != 0 ==> o.status == FAILED)
    && (o.runId.Some? <==> o.runtimeStatus.Some?)
    && (o.runtimeStatus.None? ==> o.checkpointId.None?)
    && (o.code == 0 && o.status < FAILED ==> o.runtimeStatus == Some(RuntimeStatusOf(o.status)))
    && (o.code == 0 && o.status == FAILED && o.runtimeStatus.Some? ==> o.runtimeStatus.value == OtherStatus)
    && (o.approvalPending ==> o.status == INTERRUPTED && o.route.maxTurns != 0 && o.checkpointId.Some?)
  }

  predicate ObservationValid(o: Observation, id: string) {
    && o.observationId == id && RouterId(o.observationId) && RouterId(o.taskId) && RouterId(o.executionId)
    && RouteValid(o.route)
    && NullableText(o.runId, 128) && NullableText(o.checkpointId, 128) && NullableText(o.failureKind, 128)
    && 0 <= o.status <= FAILED
    && 0 <= o.resumes <= 32 && (o.route.maxTurns == 0 ==> o.resumes == 0)
    && (o.resumes == 0 ==> o.taskId == o.executionId)
    && (if o.status < COMPLETED then OpenShape(o) else EndedShape(o))
  }

  /** Two members of a group share no identity. */
  predicate Apart(a: Observation, b: Observation) {
    && a.taskId != b.taskId && a.executionId != b.executionId
    && a.route.threadId != b.route.threadId && a.route.endpoint != b.route.endpoint
  }

  predicate MemberValid(g: Group, o: Observation, id: string) {
    && ObservationValid(o, id)
    && o.status >= COMPLETED && o.route.maxTurns == 0 && o.resumes == 0
    && o.route.parentRunId == g.parentRunId
    && o.authorityCurrent && !o.unresponsive && !o.approvalPending
    && (g.aggregation ==> o.status == COMPLETED && o.code == 0 && o.failureKind.None?)
  }

  predicate GroupValid(g: Group, id: string) {
    && g.observationId == id && RouterId(g.observationId) && RouterId(g.groupId) && Text(g.parentRunId, 128)
    && 2 <= |g.members| <= 16
    && (forall i :: 0 <= i < |g.members| ==> MemberValid(g, g.members[i], id))
    && (forall i, j :: 0 <= i < j < |g.members| ==> Apart(g.members[i], g.members[j]))
  }

  predicate ReviewValid(r: Review, id: string) {
    && r.reviewId == id && RouterId(r.reviewId) && RouterId(r.taskId) && RouterId(r.executionId)
    && RouterId(r.previousExecutionId) && RouterId(r.endpoint) && RouterId(r.threadId)
    && (r.admissionId.Some? ==> RouterId(r.admissionId.value))
    && Text(r.parentRunId, 128) && Text(r.model, 1024) && Text(r.provider, 1024)
    && Text(r.sourceRunId, 128) && Text(r.sourceCheckpointId, 128)
    && !r.decision.OtherDecision?
    && r.executionId != r.previousExecutionId && r.executionId != r.taskId
    && 1 <= r.segment <= 32 && 2 <= r.maxTurns <= 16
    && (r.segment == 1 <==> r.previousExecutionId == r.taskId)
  }
}
