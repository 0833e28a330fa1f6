/** The forward path of a report up to its first error, stage by stage. */
module ReportStages {
  import opened Collections
  import opened ReportKeys
  import opened ReportRecords
  import opened ReportTasks
  import opened ReportInspector
  import opened ReportWriter

  // ----- Where a run can stop -----

  ghost predicate Matches(t: Task, p: Slots, role: Role)
    requires !role.OtherRole?
  {
    IntentAt(p, IntentSlot(RoleIndex(role))) == Some(IntentOf(t))
  }

  /** Admitted, result not taken, first segment. */
  ghost predicate Fresh(t: Task, p: Slots, role: Role)
    requires !role.OtherRole?
  {
    Matches(t, p, role) && !t.taken && t.resumes == 0 && (t.segment.Ended? ==> Terminal(t.segment))
  }

  /** The result was taken under the observation of slot s. */
  ghost predicate Taken(t: Task, p: Slots, n: Names, role: Role, s: nat)
    requires !role.OtherRole? && s < 16
  {
    && Matches(t, p, role) && t.taken && Terminal(t.segment)
    && ObsAt(p, s) == Some(ObservationOf(t, n.keys[s]))
  }

  /** The reviewed second segment, result not taken. */
  ghost predicate Resumed(t: Task, p: Slots) {
    && Matches(t, p, Execute) && !t.taken && t.resumes == 1 && (t.segment.Ended? ==> Terminal(t.segment))
    && ReviewAt(p).Some? && t.executionId == ReviewAt(p).value.executionId
  }

  ghost predicate Table(h: Host, p: Slots, names: Names, n: nat)
    requires |h.workers| == 2
  {
    if h.phase == Workers then
      && n <= 3 && h.task.None?
      && (h.workers[0].Some? <==> n >= 1) && (h.workers[1].Some? <==> n >= 2)
      && (h.workers[0].Some? ==> Fresh(h.workers[0].value, p, WorkerA))
      && (h.workers[1].Some? ==> Fresh(h.workers[1].value, p, WorkerB))
    else
      && h.workers[0].None? && h.workers[1].None?
      && match h.phase
         case Aggregation =>
           && 3 <= n <= 5 && (h.task.Some? <==> n >= 4)
           && (h.task.Some? ==> h.role == Aggregate)
           && (n == 4 ==> Fresh(h.task.value, p, Aggregate))
           && (n == 5 ==> Taken(h.task.value, p, names, Aggregate, 4) && h.task.value.resumes == 0)
         case Execution =>
           && 5 <= n <= 6 && (h.task.Some? <==> n == 6)
           && (h.task.Some? ==> h.role == Execute && Fresh(h.task.value, p, Execute))
         case Approval =>
           && 7 <= n <= 9 && h.task.Some? && h.role == Execute
           && (n == 7 ==> Taken(h.task.value, p, names, Execute, 6) && h.task.value.resumes == 0)
           && (n >= 8 ==> Resumed(h.task.value, p))
           && (n == 9 ==> ReviewAt(p).value.decision == Reject)
         case Delivery =>
           && 8 <= n <= 9 && h.task.Some? && h.role == Execute
           && (n == 8 ==> Resumed(h.task.value, p))
           && (n == 9 ==> Taken(h.task.value, p, names, Execute, 8) && h.task.value.resumes == 1)
         case DeliveryAudit =>
           && n == 10 && h.task.Some? && h.role == Execute
           && Taken(h.task.value, p, names, Execute, 8) && h.task.value.resumes == 1
         case _ => false
  }

  /** The execute segment as the last wait left it. */
  ghost predicate SegmentSeen(h: Host, w: World, n: nat) {
    && (h.phase == Execution && n == 6 && h.task.Some? ==>
          h.task.value.segment == w.executeWait.segment && !h.task.value.reviewCancelled)
    && (n == 8 && h.task.Some? ==>
          h.task.value.segment == w.resumeWait.segment && h.task.value.reviewCancelled == (w.decision == 0))
    && (n == 9 && h.phase == Approval && h.task.Some? ==>
          h.task.value.segment == w.resumeWait.segment && h.task.value.segment.Ended?)
  }

  /** An operational stop: all attempted gates were acknowledged. */
  ghost predicate Operational(h: Host, q: Query, w: World) {
    && ValidLog(h.log)
    && var p := ViewOf(h.log).p;
       && Good(h, q, w, NormalCount(p))
       && Table(h, p, q.names, NormalCount(p)) && SegmentSeen(h, w, NormalCount(p))
  }

  ghost predicate Halted(h: Host, q: Query, w: World) {
    GateStopped(h, q, w) || Operational(h, q, w)
  }

  ghost predicate NoTasks(h: Host) {
    |h.workers| == 2 && h.workers[0].None? && h.workers[1].None? && h.task.None?
  }

  ghost predicate StoppedAt(h: Host, q: Query, w: World, n: nat) {
    Operational(h, q, w) && NormalCount(ViewOf(h.log).p) == n
  }

  lemma StopsAt(h: Host, q: Query, w: World, n: nat)
    requires Good(h, q, w, n) && Table(h, ViewOf(h.log).p, q.names, n) && SegmentSeen(h, w, n)
    ensures StoppedAt(h, q, w, n)
  {
    assert forall i :: 0 <= i < 10 ==> (ViewOf(h.log).p[i].Some? <==> i < n);
    hide Sound, Table, SegmentSeen;
    CountIs(ViewOf(h.log).p, n);
  }

  // ----- When a stage goes through -----

  predicate Admitted(q: Query, s: Submission, r: nat)
    requires r < 4
  {
    && s.request == OK && s.answer == Ack
    && IntentValid(IntentOf(TaskOf(q, s, RoleAt(r))), q.names.keys[IntentSlot(r)])
  }

  function Seen(t: Task, x: Waited): Task {
    t.(segment := x.segment, unresponsive := x.unresponsive, authorityCurrent := x.authorityCurrent)
  }

  predicate ReserveGood(q: Query, w: World) {
    ValidId(q.names.id) && Text(q.parent, 128) && w.deadline <= MAX_EXACT && w.manifest == Ack
  }

  /** The first worker's admission is attempted and not acknowledged. */
  predicate FirstGateFails(q: Query, w: World) {
    ReserveGood(q, w) && |w.workers| == 2 && w.workers[0].request == OK && !Admitted(q, w.workers[0], 0)
  }

  predicate WorkersGood(q: Query, w: World) {
    |w.workers| == 2 && Admitted(q, w.workers[0], 0) && Admitted(q, w.workers[1], 1)
  }

  function CohortOf(q: Query, a: Task, b: Task): Group
    requires a.segment.Ended? && b.segment.Ended?
  {
    Group(q.names.keys[2], q.names.keys[16], q.parent, true,
          [ObservationOf(a, q.names.keys[2]), ObservationOf(b, q.names.keys[2])])
  }

  predicate FanInGood(q: Query, w: World) {
    && |w.workers| == 2 && |w.workerWait| == 2 && w.adopt == OK && w.cohort == OK && w.fanIn == Ack && w.bind == OK
    && var a, b := Seen(TaskOf(q, w.workers[0], WorkerA), w.workerWait[0]),
                   Seen(TaskOf(q, w.workers[1], WorkerB), w.workerWait[1]);
       a.segment.Ended? && b.segment.Ended? && GroupValid(CohortOf(q, a, b), q.names.keys[2])
  }

  predicate AggregateFinished(q: Query, w: World) {
    && w.aggregateWait.rc == OK && w.aggregateInspect == OK && w.aggregateTake == Ack
    && w.aggregateDomain == OK && w.aggregateHandoff == OK
    && var t := Seen(TaskOf(q, w.aggregate, Aggregate), w.aggregateWait);
       && t.segment.Ended? && t.segment.status == COMPLETED && t.segment.code == OK && Takeable(t, q.names.keys[4])
  }

  predicate AggregateGood(q: Query, w: World) {
    w.authorityAggregate && Admitted(q, w.aggregate, 2) && AggregateFinished(q, w)
  }

  predicate ExecuteGood(q: Query, w: World) {
    w.authorityExecute && Admitted(q, w.execute, 3)
  }

  function ExecuteTask(q: Query, w: World): Task {
    Seen(TaskOf(q, w.execute, Execute), w.executeWait)
  }

  predicate PendingGood(q: Query, w: World) {
    && w.executeWait.rc == OK && w.executeInspect == OK && w.pendingTake == Ack
    && var t := ExecuteTask(q, w);
       t.segment.Ended? && ApprovalPending(t) && Takeable(t, q.names.keys[6])
  }

  predicate ReviewGood(q: Query, w: World) {
    && w.beforeReview == OK && (w.decision == 0 || w.decision == 1) && w.authorityReview && w.afterReview == OK
    && w.review == Ack
    && var t := ExecuteTask(q, w);
       && t.segment.Ended? && t.segment.runId.Some? && t.segment.checkpointId.Some?
       && ReviewValid(ReviewOf(q, t, w.resumeId, w.decision == 1), q.names.keys[7])
  }

  function ResumedTask(q: Query, w: World): Task {
    Seen(ExecuteTask(q, w), w.resumeWait).(executionId := w.resumeId, resumes := 1, reviewCancelled := w.decision == 0)
  }

  predicate RejectedGood(q: Query, w: World) {
    && w.decision == 0 && w.resumeWait.rc == OK && w.rejectedFinal == Ack && w.resumeWait.segment.Ended?
    && ObservationValid(ObservationOf(ResumedTask(q, w), q.names.keys[8]), q.names.keys[8])
  }

  predicate DeliverGood(q: Query, w: World) {
    && w.decision == 1 && w.resumeWait.rc == OK && w.authorityDelivery && w.finalInspect == OK && w.finalTake == Ack
    && w.finalDomain == OK && w.deliver == OK && w.ready == Ack && w.afterReady == OK
    && var t := ResumedTask(q, w);
       && t.segment.Ended? && t.segment.status == COMPLETED && t.segment.code == OK && Takeable(t, q.names.keys[8])
  }

  /** Everything up to the admission of the execute task goes through. */
  predicate ReachesExecute(q: Query, w: World) {
    ReserveGood(q, w) && WorkersGood(q, w) && FanInGood(q, w) && AggregateGood(q, w) && ExecuteGood(q, w)
  }

  /** Every answer from outside is the good one and the review approves. */
  predicate Smooth(q: Query, w: World) {
    ReachesExecute(q, w) && PendingGood(q, w) && ReviewGood(q, w) && DeliverGood(q, w)
  }

  // ----- How far a run gets, from the answers alone -----

  /** Through, or the first answer that is not good: its code, the phase, the number of gates that were
      acknowledged before it, and whether it is the answer of the next gate. */
  datatype Course = Through | Halts(code: Err, phase: Phase, passed: nat, gate: bool)

  function Then(a: Course, b: Course): Course {
    if a.Through? then b else a
  }

  function Check(code: Rc, phase: Phase, passed: nat): Course {
    if code == OK then Through else Halts(code, phase, passed, false)
  }

  function GateCheck(code: Rc, phase: Phase, passed: nat): Course {
    if code == OK then Through else Halts(code, phase, passed, true)
  }

  /** The admission of role r is an answer, and then a gate. */
  function AdmitCourse(q: Query, s: Submission, r: nat, phase: Phase): Course
    requires r < 4
  {
    Then(Check(s.request, phase, IntentSlot(r) + 1),
         GateCheck(CreateCode(IntentValid(IntentOf(TaskOf(q, s, RoleAt(r))), q.names.keys[IntentSlot(r)]), s.answer),
                   phase, IntentSlot(r) + 1))
  }

  function WorkersCourse(q: Query, w: World): Course
    requires |w.workers| == 2
  {
    Then(AdmitCourse(q, w.workers[0], 0, Workers), AdmitCourse(q, w.workers[1], 1, Workers))
  }

  predicate CohortValid(q: Query, w: World)
    requires |w.workers| == |w.workerWait| == 2
  {
    var a, b := Seen(TaskOf(q, w.workers[0], WorkerA), w.workerWait[0]),
                Seen(TaskOf(q, w.workers[1], WorkerB), w.workerWait[1]);
    a.segment.Ended? && b.segment.Ended? && GroupValid(CohortOf(q, a, b), q.names.keys[2])
  }

  function FanInCourse(q: Query, w: World): Course
    requires |w.workers| == |w.workerWait| == 2
  {
    Then(Check(w.adopt, Workers, 3), Then(Check(w.cohort, Workers, 3),
         Then(GateCheck(CreateCode(CohortValid(q, w), w.fanIn), Workers, 3), Check(w.bind, Workers, 4))))
  }

  predicate Completed(s: Segment) {
    s.Ended? && s.status == COMPLETED && s.code == OK
  }

  predicate MayTake(t: Task, id: string) {
    && t.segment.Ended? && !t.unresponsive && t.authorityCurrent
    && ObservationValid(ObservationOf(t, id), id)
  }

  function AggregateCourse(q: Query, w: World): Course {
    Then(Check(if w.authorityAggregate then OK else EPERM, Aggregation, 4),
    Then(AdmitCourse(q, w.aggregate, 2, Aggregation), AggregateEnd(q, w)))
  }

  function AggregateEnd(q: Query, w: World): Course {
    var t := Seen(TaskOf(q, w.aggregate, Aggregate), w.aggregateWait);
    Then(Check(w.aggregateWait.rc, Aggregation, 5), Then(Check(w.aggregateInspect, Aggregation, 5),
    Then(Check(if Completed(t.segment) then OK else EIO, Aggregation, 5),
    Then(GateCheck(CreateCode(MayTake(t, q.names.keys[4]), w.aggregateTake), Aggregation, 5),
    Then(Check(w.aggregateDomain, Aggregation, 6), Check(w.aggregateHandoff, Aggregation, 6))))))
  }

  /** A segment that neither completed nor was interrupted is an error of its own kind. */
  function SegmentCode(s: Segment): Rc {
    if s.Running? || s.status == 2 || s.status == 3 then OK
    else if s.status == 5 then ETIMEDOUT else if s.status == 4 then ECANCELED else EIO
  }

  function ExecuteCourse(q: Query, w: World): Course {
    Then(Check(if w.authorityExecute then OK else EPERM, Execution, 6),
    Then(AdmitCourse(q, w.execute, 3, Execution), ExecuteEnd(q, w)))
  }

  function ExecuteEnd(q: Query, w: World): Course {
    var t := ExecuteTask(q, w);
    Then(Check(w.executeWait.rc, Execution, 7), Then(Check(w.executeInspect, Execution, 7),
    Then(Check(SegmentCode(t.segment), Execution, 7),
    Then(Check(if ApprovalPending(t) then OK else EPROTO, Execution, 7),
         GateCheck(CreateCode(MayTake(t, q.names.keys[6]), w.pendingTake), Approval, 7)))))
  }

  function DecisionCode(decision: int): Rc {
    if decision == 0 || decision == 1 then OK else if decision < 0 then ECANCELED else EINVAL
  }

  predicate MayReview(q: Query, w: World) {
    var t := ExecuteTask(q, w);
    && t.segment.Ended? && t.segment.runId.Some? && t.segment.checkpointId.Some?
    && ReviewValid(ReviewOf(q, t, w.resumeId, w.decision == 1), q.names.keys[7])
  }

  predicate MayObserve(t: Task, id: string) {
    t.segment.Ended? && ObservationValid(ObservationOf(t, id), id)
  }

  /** A rejection stores its observation and then stops as cancelled. */
  function ReviewCourse(q: Query, w: World): Course {
    Then(Check(w.beforeReview, Approval, 8), Then(Check(DecisionCode(w.decision), Approval, 8),
    Then(Check(if w.authorityReview then OK else EPERM, Approval, 8), Then(Check(w.afterReview, Approval, 8),
    Then(GateCheck(CreateCode(MayReview(q, w), w.review), Approval, 8),
    Then(Check(w.resumeWait.rc, Approval, 9), RejectedCourse(q, w)))))))
  }

  function RejectedCourse(q: Query, w: World): Course {
    if w.decision == 1 then Through
    else Then(GateCheck(CreateCode(MayObserve(ResumedTask(q, w), q.names.keys[8]), w.rejectedFinal), Approval, 9),
              Check(ECANCELED, Approval, 10))
  }

  function DeliverCourse(q: Query, w: World): Course {
    Then(FinalCourse(q, w), ReadyCourse(w))
  }

  function FinalCourse(q: Query, w: World): Course {
    var t := ResumedTask(q, w);
    Then(Check(if w.authorityDelivery then OK else EPERM, Delivery, 9), Then(Check(w.finalInspect, Delivery, 9),
    Then(Check(if Completed(t.segment) then OK else EIO, Delivery, 9),
         GateCheck(CreateCode(MayTake(t, q.names.keys[8]), w.finalTake), Delivery, 9))))
  }

  function ReadyCourse(w: World): Course {
    Then(Check(w.finalDomain, Delivery, 10), Then(Check(w.deliver, Delivery, 10),
    Then(GateCheck(CreateCode(true, w.ready), DeliveryAudit, 10), Check(w.afterReady, DeliveryAudit, 11))))
  }

  /** The manifest gate refuses a deadline that a record could not hold. */
  function ReserveCourse(q: Query, w: World): Course {
    Then(Check(if ValidId(q.names.id) && Text(q.parent, 128) then OK else EINVAL, Admission, 0),
         GateCheck(if w.deadline > 9007199254740991 then ERANGE else CreateCode(true, w.manifest), Manifesting, 0))
  }

  function ConcludeCourse(q: Query, w: World): Course {
    Then(ExecuteCourse(q, w), Then(ReviewCourse(q, w), DeliverCourse(q, w)))
  }

  /** The whole protocol, answer by answer. */
  function RunCourse(q: Query, w: World): Course
    requires |w.workers| == |w.workerWait| == 2
  {
    Then(ReserveCourse(q, w), Then(WorkersCourse(q, w), Then(FanInCourse(q, w),
         Then(AggregateCourse(q, w), ConcludeCourse(q, w)))))
  }

  /** The host has gone exactly so far. */
  ghost predicate Went(h: Host, rc: Rc, q: Query, w: World, c: Course)
  {
    match c
    case Through => rc == OK
    case Halts(code, phase, passed, gate) =>
      && rc == code && h.phase == phase && h.trace.acknowledged == Below(passed)
      && h.trace.gateFailed == gate && (gate ==> h.trace.failedGate == passed)
      && (!gate && passed > 0 ==> Retains(h, q, w, phase, passed))
  }

  /** The tasks that a stop finds still retained, each as its last wait left it. */
  function KeptWorker(q: Query, w: World, phase: Phase, passed: nat, k: nat): Option<Task>
    requires |w.workers| == |w.workerWait| == 2 && k < 2
  {
    if phase != Workers || passed < k + 2 then None
    else if passed == 2 || w.adopt != OK then Some(TaskOf(q, w.workers[k], RoleAt(k)))
    else Some(Seen(TaskOf(q, w.workers[k], RoleAt(k)), w.workerWait[k]))
  }

  function KeptTask(q: Query, w: World, phase: Phase, passed: nat): Option<Task> {
    match phase
    case Aggregation =>
      if passed == 4 then None
      else Some(Seen(TaskOf(q, w.aggregate, Aggregate), w.aggregateWait).(taken := passed == 6))
    case Execution => if passed == 6 then None else Some(ExecuteTask(q, w))
    case Approval => Some(if passed == 8 then ExecuteTask(q, w).(taken := true) else ResumedTask(q, w))
    case Delivery => Some(ResumedTask(q, w).(taken := passed == 10))
    case DeliveryAudit => Some(ResumedTask(q, w).(taken := true))
    case _ => None
  }

  ghost predicate Retains(h: Host, q: Query, w: World, phase: Phase, passed: nat) {
    && |h.workers| == |w.workers| == |w.workerWait| == 2
    && (forall k :: 0 <= k < 2 ==> h.workers[k] == KeptWorker(q, w, phase, passed, k))
    && h.task == KeptTask(q, w, phase, passed)
    && (h.task.Some? ==> h.role == if phase == Aggregation then Aggregate else Execute)
  }

  /** An operational stop after n phase records. */
  lemma HaltsHere(h: Host, rc: Rc, q: Query, w: World, n: nat)
    requires rc != OK && Good(h, q, w, n) && Table(h, ViewOf(h.log).p, q.names, n) && SegmentSeen(h, w, n)
    requires Retains(h, q, w, h.phase, n + 1)
    ensures StoppedAt(h, q, w, n) && 0 in h.trace.acknowledged
    ensures Went(h, rc, q, w, Halts(rc, h.phase, n + 1, false))
  {
    hide Sound, Table, SegmentSeen, Retains, Operational;
    StopsAt(h, q, w, n);
  }

  /** One after the workers' phase. */
  lemma TaskHalts(h: Host, rc: Rc, q: Query, w: World, n: nat)
    requires rc != OK && Good(h, q, w, n) && Table(h, ViewOf(h.log).p, q.names, n) && SegmentSeen(h, w, n)
    requires NoWorkers(h) && |w.workers| == |w.workerWait| == 2 && h.phase != Workers
    requires h.task == KeptTask(q, w, h.phase, n + 1)
    requires h.task.Some? ==> h.role == if h.phase == Aggregation then Aggregate else Execute
    ensures StoppedAt(h, q, w, n) && Halted(h, q, w) && 0 in h.trace.acknowledged
    ensures Went(h, rc, q, w, Halts(rc, h.phase, n + 1, false))
  {
    hide KeptTask, Good, Table, SegmentSeen, Went;
    HaltsHere(h, rc, q, w, n);
  }

  lemma PassWent(h: Host, rc: Rc, q: Query, w: World, g: nat)
    requires rc != OK ==> h.trace == Trace(Below(g), g, true) && GateStopped(h, q, w) && g > 0
    ensures Went(h, rc, q, w, GateCheck(rc, h.phase, g))
    ensures rc != OK ==> Halted(h, q, w) && 0 in h.trace.acknowledged
  {
    hide GateStopped, Operational;
  }

  /** And one in it. */
  lemma WorkersHalt(h: Host, rc: Rc, q: Query, w: World, n: nat)
    requires rc != OK && Good(h, q, w, n) && Table(h, ViewOf(h.log).p, q.names, n) && h.phase == Workers
    requires |w.workers| == |w.workerWait| == 2
    requires forall k :: 0 <= k < 2 && h.workers[k].Some? ==> h.workers[k] == KeptWorker(q, w, Workers, n + 1, k)
    ensures StoppedAt(h, q, w, n) && Halted(h, q, w) && 0 in h.trace.acknowledged
    ensures Went(h, rc, q, w, Halts(rc, Workers, n + 1, false))
  {
    WorkersRetained(h, ViewOf(h.log).p, q, w, n);
    hide Good, Table, Went, Retains, KeptWorker;
    HaltsHere(h, rc, q, w, n);
  }

  lemma WorkersRetained(h: Host, p: Slots, q: Query, w: World, n: nat)
    requires |h.workers| == |w.workers| == |w.workerWait| == 2 && h.phase == Workers && Table(h, p, q.names, n)
    requires forall k :: 0 <= k < 2 && h.workers[k].Some? ==> h.workers[k] == KeptWorker(q, w, Workers, n + 1, k)
    ensures Retains(h, q, w, Workers, n + 1)
  {
    hide Fresh, TaskOf, Seen;
  }

  // ----- Workers -----

  lemma IntentFits(p: Slots, q: Query, w: World, s: Submission, r: nat)
    requires r < 4 && (forall i :: 0 <= i < 16 ==> (p[i].Some? <==> i < IntentSlot(r)))
    requires (s.endpoint, r == 3) in q.bindings && |w.workers| == |w.workerWait| == 2 && s == SubmissionOf(w, r)
    requires IntentValid(IntentOf(TaskOf(q, s, RoleAt(r))), q.names.keys[IntentSlot(r)])
    ensures Fits(p, q, w, IntentSlot(r), IntentRecord(IntentOf(TaskOf(q, s, RoleAt(r)))))
  {
    hide IntentValid;
  }

  lemma IntentStep(log: seq<Write>, q: Query, w: World, s: Submission, r: nat)
    requires r < 4 && ValidLog(log) && Sound(log, q, w, IntentSlot(r)) && (s.endpoint, r == 3) in q.bindings
    requires |w.workers| == |w.workerWait| == 2 && s == SubmissionOf(w, r)
    requires IntentValid(IntentOf(TaskOf(q, s, RoleAt(r))), q.names.keys[IntentSlot(r)])
    ensures Fits(ViewOf(log).p, q, w, IntentSlot(r), IntentRecord(IntentOf(TaskOf(q, s, RoleAt(r)))))
  {
    hide RecordsOk, Survives, IntentValid, Fits;
    IntentFits(ViewOf(log).p, q, w, s, r);
  }

  method SubmitWorkers(q: Query, w: World, h0: Host) returns (h: Host, rc: Rc)
    requires NamesOk(q.names) && WorldOk(w, q) && Good(h0, q, w, 0) && h0.phase == Workers && NoTasks(h0)
    ensures rc == OK ==>
      && Good(h, q, w, 2) && h.phase == Workers && Table(h, ViewOf(h.log).p, q.names, 2)
      && h.workers == [Some(TaskOf(q, w.workers[0], WorkerA)), Some(TaskOf(q, w.workers[1], WorkerB))]
    ensures rc != OK ==> Halted(h, q, w) && 0 in h.trace.acknowledged
    ensures rc == OK <==> WorkersGood(q, w)
    ensures w.workers[0].request == OK && !Admitted(q, w.workers[0], 0) ==>
      h.trace.gateFailed && h.trace.failedGate == 1
    ensures Went(h, rc, q, w, WorkersCourse(q, w))
  {
    hide Sound, Halted, Admitted, TaskOf, AdmitCourse, Went;
    h, rc := h0, OK;
    for i := 0 to 2
      invariant rc == OK && Good(h, q, w, i) && h.phase == Workers && Table(h, ViewOf(h.log).p, q.names, i)
      invariant forall k :: 0 <= k < i ==> h.workers[k] == Some(TaskOf(q, w.workers[k], RoleAt(k)))
      invariant forall k :: 0 <= k < i ==>
        Admitted(q, w.workers[k], k) && AdmitCourse(q, w.workers[k], k, Workers).Through?
    {
      h, rc := SubmitWorker(q, w, h, i);
      WentThrough(h, rc, q, w, AdmitCourse(q, w.workers[i], i, Workers));
      if rc != OK { return; }
    }
    NothingWrong(h, rc, q, w);
  }

  lemma WentThrough(h: Host, rc: Rc, q: Query, w: World, c: Course)
    requires Went(h, rc, q, w, c)
    ensures c.Through? <==> rc == OK
  {
  }

  lemma NothingWrong(h: Host, rc: Rc, q: Query, w: World)
    requires rc == OK
    ensures Went(h, rc, q, w, Through)
  {
  }

  lemma WorkerJoins(h0: Host, h: Host, p: Slots, q: Query, s: Submission, i: nat)
    requires i < 2 && |h0.workers| == 2 && h0.phase == Workers && Table(h0, p, q.names, i)
    requires h.phase == Workers && h.workers == h0.workers && h.task == h0.task
    ensures var t := TaskOf(q, s, RoleAt(i));
      Table(h.(workers := h.workers[i := Some(t)]), p[i := Some(IntentRecord(IntentOf(t)))], q.names, i + 1)
  {
  }

  method SubmitWorker(q: Query, w: World, h0: Host, i: nat) returns (h: Host, rc: Rc)
    requires NamesOk(q.names) && WorldOk(w, q) && i < 2
    requires Good(h0, q, w, i) && h0.phase == Workers && Table(h0, ViewOf(h0.log).p, q.names, i)
    requires forall k :: 0 <= k < i ==> h0.workers[k] == Some(TaskOf(q, w.workers[k], RoleAt(k)))
    ensures rc == OK ==>
      && Good(h, q, w, i + 1) && h.phase == Workers && Table(h, ViewOf(h.log).p, q.names, i + 1)
      && h.workers == h0.workers[i := Some(TaskOf(q, w.workers[i], RoleAt(i)))]
    ensures rc != OK ==> Halted(h, q, w) && 0 in h.trace.acknowledged
    ensures rc == OK <==> Admitted(q, w.workers[i], i)
    ensures w.workers[i].request == OK && rc != OK ==> h.trace.gateFailed && h.trace.failedGate == i + 1
    ensures Went(h, rc, q, w, AdmitCourse(q, w.workers[i], i, Workers))
  {
    hide Sound, Fits, Operational, Halted, GateStopped, StoppedAt, NoneTwice, IntentValid, Went, TaskOf;
    h := h0;
    var s := w.workers[i];
    if s.request != OK {
      WorkersHalt(h, s.request, q, w, i);
      return h, s.request;
    }
    var t := TaskOf(q, s, RoleAt(i));
    var valid := IntentValid(IntentOf(t), q.names.keys[i]);
    if valid { IntentStep(h.log, q, w, s, i); }
    h, rc := Pass(h, q, w, i + 1, IntentRecord(IntentOf(t)), valid, s.answer);
    PassWent(h, rc, q, w, i + 1);
    if rc != OK { return; }
    WorkerJoins(h0, h, ViewOf(h0.log).p, q, s, i);
    h := h.(workers := h.workers[i := Some(t)]);
    NothingWrong(h, rc, q, w);
  }

  /** Both workers as their waits left them. */
  ghost predicate BothSeen(q: Query, w: World, a: Task, b: Task) {
    && |w.workers| == |w.workerWait| == 2
    && a == Seen(TaskOf(q, w.workers[0], WorkerA), w.workerWait[0])
    && b == Seen(TaskOf(q, w.workers[1], WorkerB), w.workerWait[1])
  }

  lemma FanInFits(p: Slots, q: Query, w: World, a: Task, b: Task)
    requires RoutesOk(p, q) && p[2].None? && p[8].None? && Matches(a, p, WorkerA) && Matches(b, p, WorkerB)
    requires a.segment.Ended? && b.segment.Ended? && GroupValid(CohortOf(q, a, b), q.names.keys[2])
    requires BothSeen(q, w, a, b)
    ensures Fits(p, q, w, 2, GroupRecord(CohortOf(q, a, b)))
  {
    assert RouteSlotOk(p, q, 0) && RouteSlotOk(p, q, 1);
    GroupTold(q, w, a, b);
    hide RoutesOk, GroupValid, GroupTells, BothSeen;
  }

  lemma GroupTold(q: Query, w: World, a: Task, b: Task)
    requires BothSeen(q, w, a, b) && a.segment.Ended? && b.segment.Ended?
    ensures GroupTells(CohortOf(q, a, b), q, w)
  {
  }

  lemma FanInStep(log: seq<Write>, q: Query, w: World, a: Task, b: Task)
    requires ValidLog(log) && Sound(log, q, w, 2)
    requires Matches(a, ViewOf(log).p, WorkerA) && Matches(b, ViewOf(log).p, WorkerB)
    requires a.segment.Ended? && b.segment.Ended? && GroupValid(CohortOf(q, a, b), q.names.keys[2])
    requires BothSeen(q, w, a, b)
    ensures Fits(ViewOf(log).p, q, w, 2, GroupRecord(CohortOf(q, a, b)))
  {
    hide LoadedOk, RoutesOk, ChainOk, Survives, GroupValid, Fits, Matches, BothSeen;
    FanInFits(ViewOf(log).p, q, w, a, b);
  }

  /** Both workers as their waits left them. */
  lemma WorkersSeen(h0: Host, h: Host, p: Slots, q: Query, w: World)
    requires WorldOk(w, q) && |h0.workers| == 2 && h0.phase == Workers && Table(h0, p, q.names, 2)
    requires h == h0.(workers := [Some(Seen(h0.workers[0].value, w.workerWait[0])),
                                  Some(Seen(h0.workers[1].value, w.workerWait[1]))])
    ensures Table(h, p, q.names, 2)
    ensures Matches(h.workers[0].value, p, WorkerA) && Matches(h.workers[1].value, p, WorkerB)
  {
  }

  lemma FanInLands(h0: Host, h: Host, p: Slots, q: Query, r: Record)
    requires |h0.workers| == 2 && h0.phase == Workers && Table(h0, p, q.names, 2)
    requires h.phase == Workers && h.workers == h0.workers && h.task == h0.task
    ensures Table(h, p[2 := Some(r)], q.names, 3)
  {
  }

  method FanIn(q: Query, w: World, h0: Host) returns (h: Host, rc: Rc)
    requires NamesOk(q.names) && WorldOk(w, q)
    requires Good(h0, q, w, 2) && h0.phase == Workers && Table(h0, ViewOf(h0.log).p, q.names, 2)
    requires h0.workers == [Some(TaskOf(q, w.workers[0], WorkerA)), Some(TaskOf(q, w.workers[1], WorkerB))]
    ensures rc == OK ==> Good(h, q, w, 3) && h.phase == Workers && NoTasks(h)
    ensures rc != OK ==> Halted(h, q, w) && 0 in h.trace.acknowledged
    ensures rc == OK <==> FanInGood(q, w)
    ensures Went(h, rc, q, w, FanInCourse(q, w))
  {
    hide Sound, Fits, Table, Operational, Halted, GateStopped, StoppedAt, NoneTwice, GroupValid, CohortOf, TaskOf,
         Matches, Went;
    h := h0;
    if w.adopt != OK {
      WorkersHalt(h, w.adopt, q, w, 2);
      return h, w.adopt;
    }
    var a, b := Seen(h.workers[0].value, w.workerWait[0]), Seen(h.workers[1].value, w.workerWait[1]);
    h := h.(workers := [Some(a), Some(b)]);
    WorkersSeen(h0, h, ViewOf(h0.log).p, q, w);
    if w.cohort != OK {
      WorkersHalt(h, w.cohort, q, w, 2);
      return h, w.cohort;
    }
    var g := CohortOf(q, a, b);
    var valid := GroupValid(g, q.names.keys[2]);
    if valid { FanInStep(h.log, q, w, a, b); }
    ghost var was := h;
    h, rc := Pass(h, q, w, 3, GroupRecord(g), valid, w.fanIn);
    PassWent(h, rc, q, w, 3);
    if rc != OK { return; }
    FanInLands(was, h, ViewOf(h0.log).p, q, GroupRecord(g));
    if w.bind != OK {
      WorkersHalt(h, w.bind, q, w, 3);
      return h, w.bind;
    }
    h := h.(workers := [None, None]);
    NothingWrong(h, rc, q, w);
  }

  // ----- Aggregation -----

  /** Taking a result: the observation is written first, and only an acknowledged write moves it. */
  function Takeable(t: Task, id: string): bool
    requires t.segment.Ended?
  {
    !t.unresponsive && t.authorityCurrent && ObservationValid(ObservationOf(t, id), id)
  }

  lemma ObservationStep(p: Slots, q: Query, t: Task, role: Role, id: string)
    requires !role.OtherRole? && RoutesOk(p, q) && Matches(t, p, role) && t.segment.Ended?
    ensures ObsOk(ObservationOf(t, id), IntentAt(p, IntentSlot(RoleIndex(role))), q, role)
  {
    assert RouteSlotOk(p, q, RoleIndex(role));
  }

  lemma RoutesOf(log: seq<Write>, q: Query, w: World, n: nat)
    requires ValidLog(log) && Sound(log, q, w, n)
    ensures RoutesOk(ViewOf(log).p, q) && n <= 10
    ensures forall i :: 0 <= i < 16 ==> (ViewOf(log).p[i].Some? <==> i < n)
    ensures n >= 8 ==> ReviewAt(ViewOf(log).p).Some?
  {
    hide RoutesOk, ChainOk, Survives;
    assert n >= 8 ==> Loads(q.names, 7, ViewOf(log).p[7].value);
  }

  /** Submit a single task: nothing is retained unless the intent gate acknowledged it. */
  method Admit(q: Query, w: World, h0: Host, s: Submission, r: nat) returns (h: Host, rc: Rc)
    requires NamesOk(q.names) && (r == 2 || r == 3) && (s.endpoint, r == 3) in q.bindings && s.request == OK
    requires |w.workers| == |w.workerWait| == 2 && s == SubmissionOf(w, r)
    requires Good(h0, q, w, IntentSlot(r)) && NoTasks(h0) && h0.phase == GatePhase(IntentSlot(r) + 1)
    ensures h.phase == h0.phase && h.role == h0.role && h.workers == h0.workers
    ensures rc == OK ==>
      && Good(h, q, w, IntentSlot(r) + 1) && h.task == Some(TaskOf(q, s, RoleAt(r)))
      && Matches(h.task.value, ViewOf(h.log).p, RoleAt(r))
    ensures rc != OK ==> GateStopped(h, q, w) && Halted(h, q, w) && 0 in h.trace.acknowledged
    ensures rc == OK <==> Admitted(q, s, r)
    ensures Went(h, rc, q, w, AdmitCourse(q, s, r, h0.phase))
  {
    hide Sound, Fits, GateStopped, NoneTwice, IntentValid, Went;
    var t := TaskOf(q, s, RoleAt(r));
    var valid := IntentValid(IntentOf(t), q.names.keys[IntentSlot(r)]);
    if valid { IntentStep(h0.log, q, w, s, r); }
    h, rc := Pass(h0, q, w, IntentSlot(r) + 1, IntentRecord(IntentOf(t)), valid, s.answer);
    PassWent(h, rc, q, w, IntentSlot(r) + 1);
    if rc == OK {
      h := h.(task := Some(t));
      NothingWrong(h, rc, q, w);
    }
  }

  lemma TakeableMay(t: Task, id: string)
    requires t.segment.Ended?
    ensures Takeable(t, id) <==> MayTake(t, id)
  {
  }

  lemma TakenLands(p: Slots, t: Task, n: Names, role: Role, s: nat)
    requires (s == 4 && role == Aggregate) || ((s == 6 || s == 8) && role == Execute)
    requires Matches(t, p, role) && Terminal(t.segment)
    ensures var p' := p[s := Some(ObservationRecord(ObservationOf(t, n.keys[s])))];
      Taken(t.(taken := true), p', n, role, s) && ReviewAt(p') == ReviewAt(p)
  {
  }

  /** Take the result of the retained task under the observation of slot s. */
  method Take(q: Query, w: World, h0: Host, s: nat, role: Role, answer: Answer) returns (h: Host, rc: Rc)
    requires (s == 4 && role == Aggregate) || ((s == 6 || s == 8) && role == Execute)
    requires NamesOk(q.names) && Good(h0, q, w, s) && h0.phase == GatePhase(s + 1)
    requires h0.task.Some? && Terminal(h0.task.value.segment)
    requires Matches(h0.task.value, ViewOf(h0.log).p, role)
    requires Takeable(h0.task.value, q.names.keys[s]) ==>
      Fits(ViewOf(h0.log).p, q, w, s, ObservationRecord(ObservationOf(h0.task.value, q.names.keys[s])))
    ensures h.phase == h0.phase && h.role == h0.role && h.workers == h0.workers
    ensures rc == OK ==>
      && Good(h, q, w, s + 1) && h.task == Some(h0.task.value.(taken := true))
      && Taken(h.task.value, ViewOf(h.log).p, q.names, role, s)
      && ReviewAt(ViewOf(h.log).p) == ReviewAt(ViewOf(h0.log).p)
    ensures rc != OK ==> GateStopped(h, q, w) && Halted(h, q, w) && 0 in h.trace.acknowledged
    ensures rc == OK <==> Takeable(h0.task.value, q.names.keys[s]) && answer == Ack
    ensures Went(h, rc, q, w, GateCheck(CreateCode(MayTake(h0.task.value, q.names.keys[s]), answer), h0.phase, s + 1))
  {
    hide Sound, Fits, GateStopped, NoneTwice, Takeable, Taken, Matches, Went;
    var t := h0.task.value;
    var o := ObservationOf(t, q.names.keys[s]);
    h, rc := Pass(h0, q, w, s + 1, ObservationRecord(o), Takeable(t, q.names.keys[s]), answer);
    TakeableMay(t, q.names.keys[s]);
    PassWent(h, rc, q, w, s + 1);
    if rc == OK {
      h := h.(task := Some(t.(taken := true)));
      NothingWrong(h, rc, q, w);
      TakenLands(ViewOf(h0.log).p, t, q.names, role, s);
    }
  }

  lemma AggregateFinalFits(p: Slots, q: Query, w: World, t: Task)
    requires RoutesOk(p, q) && p[8].None? && Matches(t, p, Aggregate) && t.segment.Ended?
    requires t.segment.status == COMPLETED && t.segment.code == OK && Takeable(t, q.names.keys[4])
    requires |w.workers| == |w.workerWait| == 2 && t == Seen(TaskOf(q, w.aggregate, Aggregate), w.aggregateWait)
    ensures Fits(p, q, w, 4, ObservationRecord(ObservationOf(t, q.names.keys[4])))
  {
    ObservationStep(p, q, t, Aggregate, q.names.keys[4]);
    hide RoutesOk, ObservationValid, ObsOk;
  }

  lemma PendingFits(p: Slots, q: Query, w: World, t: Task)
    requires RoutesOk(p, q) && p[8].None? && Matches(t, p, Execute) && t.resumes == 0
    requires ApprovalPending(t) && Takeable(t, q.names.keys[6])
    requires |w.workers| == |w.workerWait| == 2 && t == ExecuteTask(q, w)
    ensures Fits(p, q, w, 6, ObservationRecord(ObservationOf(t, q.names.keys[6])))
  {
    ObservationStep(p, q, t, Execute, q.names.keys[6]);
    hide RoutesOk, ObservationValid, ObsOk;
  }

  method AggregateStage(q: Query, w: World, h0: Host) returns (h: Host, rc: Rc)
    requires NamesOk(q.names) && WorldOk(w, q) && Good(h0, q, w, 3) && NoTasks(h0)
    ensures rc == OK ==> Good(h, q, w, 5) && NoTasks(h)
    ensures rc != OK ==> Halted(h, q, w) && 0 in h.trace.acknowledged
    ensures rc == OK <==> AggregateGood(q, w)
    ensures Went(h, rc, q, w, AggregateCourse(q, w))
  {
    hide Sound, Operational, Halted, GateStopped, StoppedAt, TaskOf, AggregateFinished, IntentValid, IntentOf,
         IntentAt, NoneTwice, Went, AggregateEnd;
    h := h0.(phase := Aggregation, role := Aggregate);
    if !w.authorityAggregate || w.aggregate.request != OK {
      rc := if !w.authorityAggregate then EPERM else w.aggregate.request;
      TaskHalts(h, rc, q, w, 3);
      return;
    }
    h, rc := Admit(q, w, h, w.aggregate, 2);
    if rc != OK { return; }
    h, rc := AggregateResult(q, w, h);
  }

  lemma AggregateHalts(h: Host, rc: Rc, q: Query, w: World)
    requires rc != OK && WorldOk(w, q) && Good(h, q, w, 4) && h.phase == Aggregation && h.role == Aggregate
    requires NoWorkers(h) && h.task == Some(Seen(TaskOf(q, w.aggregate, Aggregate), w.aggregateWait))
    requires Matches(h.task.value, ViewOf(h.log).p, Aggregate)
    ensures Halted(h, q, w) && 0 in h.trace.acknowledged
    ensures Went(h, rc, q, w, Halts(rc, Aggregation, 5, false))
  {
    hide Sound, Halted, StoppedAt, Went, Matches;
    TaskHalts(h, rc, q, w, 4);
  }

  method AggregateResult(q: Query, w: World, h0: Host) returns (h: Host, rc: Rc)
    requires NamesOk(q.names) && WorldOk(w, q) && Good(h0, q, w, 4) && h0.phase == Aggregation && h0.role == Aggregate
    requires NoWorkers(h0) && h0.task == Some(TaskOf(q, w.aggregate, Aggregate))
    requires Matches(h0.task.value, ViewOf(h0.log).p, Aggregate)
    ensures rc == OK ==> Good(h, q, w, 5) && NoTasks(h)
    ensures rc != OK ==> Halted(h, q, w) && 0 in h.trace.acknowledged
    ensures rc == OK <==> AggregateFinished(q, w)
    ensures Went(h, rc, q, w, AggregateEnd(q, w))
  {
    hide Sound, Fits, Operational, Halted, GateStopped, StoppedAt, NoneTwice, ObservationValid, Taken, IntentAt, Went,
         Takeable, MayTake, TaskOf;
    var t := Seen(h0.task.value, w.aggregateWait);
    h := h0.(task := Some(t));
    rc := if w.aggregateWait.rc != OK then w.aggregateWait.rc
          else if w.aggregateInspect != OK then w.aggregateInspect
          else if t.segment.status != COMPLETED || t.segment.code != OK then EIO
          else OK;
    if rc != OK {
      AggregateHalts(h, rc, q, w);
      return;
    }
    RoutesOf(h.log, q, w, 4);
    if Takeable(t, q.names.keys[4]) { AggregateFinalFits(ViewOf(h.log).p, q, w, t); }
    h, rc := Take(q, w, h, 4, Aggregate, w.aggregateTake);
    TakeableMay(t, q.names.keys[4]);
    if rc != OK { return; }
    h, rc := AggregateHandoff(q, w, h);
  }

  method AggregateHandoff(q: Query, w: World, h0: Host) returns (h: Host, rc: Rc)
    requires Good(h0, q, w, 5) && h0.phase == Aggregation && h0.role == Aggregate && NoWorkers(h0)
    requires h0.task == Some(Seen(TaskOf(q, w.aggregate, Aggregate), w.aggregateWait).(taken := true))
    requires |w.workers| == |w.workerWait| == 2
    requires Taken(h0.task.value, ViewOf(h0.log).p, q.names, Aggregate, 4)
    ensures rc == OK ==> Good(h, q, w, 5) && NoTasks(h)
    ensures rc != OK ==> Halted(h, q, w) && 0 in h.trace.acknowledged
    ensures rc == OK <==> w.aggregateDomain == OK && w.aggregateHandoff == OK
    ensures Went(h, rc, q, w, Then(Check(w.aggregateDomain, Aggregation, 6), Check(w.aggregateHandoff, Aggregation, 6)))
  {
    hide Sound, Operational, Halted, GateStopped, StoppedAt, Taken, Went;
    h := h0;
    rc := if w.aggregateDomain != OK then w.aggregateDomain else w.aggregateHandoff;
    if rc != OK {
      TaskHalts(h, rc, q, w, 5);
      return;
    }
    h := h.(task := None);
    NothingWrong(h, rc, q, w);
  }

  // ----- Execution and approval -----

  /** The pending result was taken: the execute task now waits for a decision. */
  ghost predicate AwaitsReview(h: Host, q: Query, w: World) {
    && Good(h, q, w, 7) && h.phase == Approval && Table(h, ViewOf(h.log).p, q.names, 7)
    && h.task == Some(ExecuteTask(q, w).(taken := true)) && w.executeWait.segment.Ended?
    && w.executeWait.segment.runId.Some? && w.executeWait.segment.checkpointId.Some?
  }

  method ExecuteStage(q: Query, w: World, h0: Host) returns (h: Host, rc: Rc)
    requires NamesOk(q.names) && WorldOk(w, q) && Good(h0, q, w, 5) && NoTasks(h0)
    ensures rc == OK ==> AwaitsReview(h, q, w)
    ensures rc != OK ==> Halted(h, q, w) && 0 in h.trace.acknowledged
    ensures rc == OK <==> ExecuteGood(q, w) && PendingGood(q, w)
    ensures Went(h, rc, q, w, ExecuteCourse(q, w))
    ensures ExecuteGood(q, w) && w.executeWait.rc != OK ==>
      StoppedAt(h, q, w, 6) && h.task == Some(ExecuteTask(q, w)) && h.phase == Execution
  {
    hide Sound, Operational, Halted, GateStopped, StoppedAt, TaskOf, PendingGood, AwaitsReview, IntentValid, IntentOf,
         IntentAt, NoneTwice, Went, ExecuteEnd;
    h := h0.(phase := Execution, role := Execute);
    if !w.authorityExecute || w.execute.request != OK {
      rc := if !w.authorityExecute then EPERM else w.execute.request;
      TaskHalts(h, rc, q, w, 5);
      return;
    }
    h, rc := Admit(q, w, h, w.execute, 3);
    if rc != OK { return; }
    h, rc := PendingResult(q, w, h);
  }

  function StatusError(status: int): Err {
    if status == 5 then ETIMEDOUT else if status == 4 then ECANCELED else EIO
  }

  /** What a pending result must carry to be observed. */
  lemma PendingIds(t: Task, id: string)
    requires ApprovalPending(t) && Takeable(t, id)
    ensures t.segment.runId.Some? && t.segment.checkpointId.Some?
  {
  }

  method PendingResult(q: Query, w: World, h0: Host) returns (h: Host, rc: Rc)
    requires NamesOk(q.names) && WorldOk(w, q) && Good(h0, q, w, 6) && h0.phase == Execution && h0.role == Execute
    requires NoWorkers(h0) && h0.task == Some(TaskOf(q, w.execute, Execute))
    requires Matches(h0.task.value, ViewOf(h0.log).p, Execute)
    ensures rc == OK ==> AwaitsReview(h, q, w)
    ensures rc != OK ==> Halted(h, q, w) && 0 in h.trace.acknowledged
    ensures rc == OK <==> PendingGood(q, w)
    ensures Went(h, rc, q, w, ExecuteEnd(q, w))
    ensures w.executeWait.rc != OK ==>
      StoppedAt(h, q, w, 6) && h.task == Some(ExecuteTask(q, w)) && h.phase == Execution
  {
    hide Sound, Fits, Operational, Halted, GateStopped, StoppedAt, NoneTwice, ObservationValid, Taken, IntentAt, Went,
         Takeable;
    var t := Seen(h0.task.value, w.executeWait);
    h := h0.(task := Some(t));
    rc := if w.executeWait.rc != OK then w.executeWait.rc
          else if w.executeInspect != OK then w.executeInspect
          else if t.segment.status != COMPLETED && t.segment.status != INTERRUPTED then StatusError(t.segment.status)
          else if !ApprovalPending(t) then EPROTO
          else OK;
    if rc != OK {
      TaskHalts(h, rc, q, w, 6);
      return;
    }
    h, rc := TakePending(q, w, h.(phase := Approval), t);
  }

  method TakePending(q: Query, w: World, h0: Host, ghost t: Task) returns (h: Host, rc: Rc)
    requires NamesOk(q.names) && WorldOk(w, q) && Good(h0, q, w, 6) && h0.phase == Approval && h0.role == Execute
    requires NoWorkers(h0) && h0.task == Some(t) && t == ExecuteTask(q, w) && ApprovalPending(t)
    requires Matches(t, ViewOf(h0.log).p, Execute)
    ensures rc == OK ==> AwaitsReview(h, q, w)
    ensures rc != OK ==> Halted(h, q, w) && 0 in h.trace.acknowledged
    ensures rc == OK <==> w.pendingTake == Ack && Takeable(t, q.names.keys[6])
    ensures Went(h, rc, q, w, GateCheck(CreateCode(MayTake(t, q.names.keys[6]), w.pendingTake), Approval, 7))
  {
    hide Sound, Fits, Operational, Halted, GateStopped, StoppedAt, NoneTwice, ObservationValid, Taken, IntentAt, Went;
    RoutesOf(h0.log, q, w, 6);
    if Takeable(t, q.names.keys[6]) {
      PendingFits(ViewOf(h0.log).p, q, w, t);
      PendingIds(t, q.names.keys[6]);
    }
    h, rc := Take(q, w, h0, 6, Execute, w.pendingTake);
  }

  lemma ReviewFits(p: Slots, q: Query, w: World, t: Task, approved: bool)
    requires RoutesOk(p, q) && p[8].None? && Taken(t, p, q.names, Execute, 6) && t.resumes == 0
    requires t.segment.runId.Some? && t.segment.checkpointId.Some?
    requires ReviewValid(ReviewOf(q, t, w.resumeId, approved), q.names.keys[7])
    requires |w.workers| == |w.workerWait| == 2 && t == ExecuteTask(q, w).(taken := true)
    requires approved == (w.decision == 1)
    ensures Fits(p, q, w, 7, ReviewRecord(ReviewOf(q, t, w.resumeId, approved)))
  {
    assert RouteSlotOk(p, q, 3);
    hide RoutesOk, ReviewValid;
  }

  lemma ResumedStarts(p: Slots, t: Task, t': Task, r: Review)
    requires Matches(t, p, Execute) && IntentOf(t') == IntentOf(t) && t'.executionId == r.executionId
    requires !t'.taken && t'.resumes == 1 && (t'.segment.Ended? ==> Terminal(t'.segment))
    ensures Resumed(t', p[7 := Some(ReviewRecord(r))]) && ReviewAt(p[7 := Some(ReviewRecord(r))]) == Some(r)
  {
  }

  ghost predicate NoWorkers(h: Host) { |h.workers| == 2 && h.workers[0].None? && h.workers[1].None? }

  /** The reviewed segment as its wait left it. */
  ghost predicate AfterReview(h: Host, q: Query, w: World) {
    && Good(h, q, w, 8) && h.phase == Approval && h.role == Execute && NoWorkers(h)
    && h.task == Some(ResumedTask(q, w)) && Resumed(h.task.value, ViewOf(h.log).p)
    && ReviewAt(ViewOf(h.log).p).value.decision == (if w.decision == 1 then Approve else Reject)
  }

  /** The review intent, and then the resumed segment as the wait leaves it. */
  method RecordReview(q: Query, w: World, h0: Host) returns (h: Host, rc: Rc)
    requires NamesOk(q.names) && WorldOk(w, q) && AwaitsReview(h0, q, w) && (w.decision == 0 || w.decision == 1)
    ensures rc == OK ==> AfterReview(h, q, w)
    ensures rc != OK ==> GateStopped(h, q, w) && Halted(h, q, w) && 0 in h.trace.acknowledged
    ensures rc == OK <==>
      (w.review == Ack && ReviewValid(ReviewOf(q, ExecuteTask(q, w), w.resumeId, w.decision == 1), q.names.keys[7]))
    ensures Went(h, rc, q, w, GateCheck(CreateCode(MayReview(q, w), w.review), Approval, 8))
  {
    hide Sound, Fits, GateStopped, NoneTwice, ReviewValid, Matches, Resumed, Went;
    var t := h0.task.value;
    var r := ReviewOf(q, t, w.resumeId, w.decision == 1);
    RoutesOf(h0.log, q, w, 7);
    if ReviewValid(r, q.names.keys[7]) { ReviewFits(ViewOf(h0.log).p, q, w, t, w.decision == 1); }
    h, rc := Pass(h0, q, w, 8, ReviewRecord(r), ReviewValid(r, q.names.keys[7]), w.review);
    PassWent(h, rc, q, w, 8);
    if rc != OK { return; }
    ResumedStarts(ViewOf(h0.log).p, t, ResumedTask(q, w), r);
    h := h.(task := Some(ResumedTask(q, w)));
    NothingWrong(h, rc, q, w);
  }

  method ReviewStage(q: Query, w: World, h0: Host) returns (h: Host, rc: Rc)
    requires NamesOk(q.names) && WorldOk(w, q) && AwaitsReview(h0, q, w)
    ensures rc == OK ==> AfterReview(h, q, w)
    ensures rc != OK ==> Halted(h, q, w) && 0 in h.trace.acknowledged
    ensures rc == OK <==> ReviewGood(q, w) && w.decision == 1 && w.resumeWait.rc == OK
    ensures ReviewGood(q, w) && RejectedGood(q, w) ==> StoppedAt(h, q, w, 9)
    ensures Went(h, rc, q, w, ReviewCourse(q, w))
  {
    hide Sound, Operational, Halted, GateStopped, StoppedAt, NoneTwice, ReviewValid, ObservationValid, Taken, TaskOf,
         Went, MayReview, RejectedCourse;
    h := h0;
    rc := if w.beforeReview != OK then w.beforeReview
          else if w.decision < 0 then ECANCELED
          else if w.decision != 0 && w.decision != 1 then EINVAL
          else if !w.authorityReview then EPERM
          else w.afterReview;
    if rc != OK {
      TaskHalts(h, rc, q, w, 7);
      return;
    }
    h, rc := RecordReview(q, w, h);
    WentThrough(h, rc, q, w, GateCheck(CreateCode(MayReview(q, w), w.review), Approval, 8));
    if rc != OK { return; }
    h, rc := ResumeStage(q, w, h);
  }

  method ResumeStage(q: Query, w: World, h0: Host) returns (h: Host, rc: Rc)
    requires NamesOk(q.names) && WorldOk(w, q) && AfterReview(h0, q, w) && (w.decision == 0 || w.decision == 1)
    ensures rc == OK ==> h == h0
    ensures rc != OK ==> Halted(h, q, w) && 0 in h.trace.acknowledged
    ensures rc == OK <==> w.decision == 1 && w.resumeWait.rc == OK
    ensures RejectedGood(q, w) ==> StoppedAt(h, q, w, 9)
    ensures Went(h, rc, q, w, Then(Check(w.resumeWait.rc, Approval, 9), RejectedCourse(q, w)))
  {
    hide Sound, Operational, Halted, GateStopped, StoppedAt, NoneTwice, ObservationValid, Resumed, Went;
    h, rc := h0, w.resumeWait.rc;
    NothingWrong(h, OK, q, w);
    if rc != OK {
      TaskHalts(h, rc, q, w, 8);
      return;
    }
    if w.decision == 0 {
      h, rc := RejectedStage(q, w, h);
    }
  }

  lemma FinalFits(p: Slots, q: Query, w: World, t: Task)
    requires RoutesOk(p, q) && Resumed(t, p) && t.segment.Ended? && !ApprovalPending(t)
    requires ObservationValid(ObservationOf(t, q.names.keys[8]), q.names.keys[8])
    requires if w.decision == 1
      then ReviewAt(p).value.decision == Approve && t.segment.status == COMPLETED && t.segment.code == OK
      else w.decision == 0 && ReviewAt(p).value.decision == Reject && t.segment == w.resumeWait.segment
    requires |w.workers| == |w.workerWait| == 2 && t == ResumedTask(q, w)
    ensures Fits(p, q, w, 8, ObservationRecord(ObservationOf(t, q.names.keys[8])))
  {
    ObservationStep(p, q, t, Execute, q.names.keys[8]);
    hide RoutesOk, ObservationValid, ObsOk, Matches;
  }

  lemma ResumedStays(p: Slots, t: Task, s: nat, r: Record)
    requires Resumed(t, p) && 8 <= s < 16
    ensures Resumed(t, p[s := Some(r)]) && ReviewAt(p[s := Some(r)]) == ReviewAt(p)
  {
  }

  /** A rejected review can no longer be pending. */
  lemma RejectedIsSettled(q: Query, w: World)
    requires w.decision == 0 && w.resumeWait.segment.Ended?
    ensures !ApprovalPending(ResumedTask(q, w))
  {
  }

  lemma RejectedHalts(h0: Host, h: Host, q: Query, w: World, r: Record)
    requires AfterReview(h0, q, w) && w.decision == 0 && w.resumeWait.segment.Ended?
    requires |w.workers| == |w.workerWait| == 2
    requires h.phase == h0.phase && h.workers == h0.workers && h.task == h0.task && h.role == h0.role
    requires Good(h, q, w, 9) && ViewOf(h.log) == Apply(ViewOf(h0.log), Write(Some(8), r))
    ensures StoppedAt(h, q, w, 9) && Halted(h, q, w) && 0 in h.trace.acknowledged
    ensures Went(h, ECANCELED, q, w, Halts(ECANCELED, Approval, 10, false))
  {
    hide Sound, Resumed, Operational, Halted, GateStopped, StoppedAt, TaskOf, Went;
    ResumedStays(ViewOf(h0.log).p, h.task.value, 8, r);
    TaskHalts(h, ECANCELED, q, w, 9);
  }

  /** A rejected review: observe the terminal segment, whatever its outcome, and stop. */
  method RejectedStage(q: Query, w: World, h0: Host) returns (h: Host, rc: Rc)
    requires NamesOk(q.names) && WorldOk(w, q) && AfterReview(h0, q, w)
    requires w.decision == 0 && w.resumeWait.rc == OK
    ensures rc != OK && Halted(h, q, w) && 0 in h.trace.acknowledged
    ensures RejectedGood(q, w) ==> StoppedAt(h, q, w, 9)
    ensures Went(h, rc, q, w, RejectedCourse(q, w))
  {
    hide Sound, Fits, Operational, Halted, GateStopped, StoppedAt, NoneTwice, ObservationValid, Resumed, ExecuteTask,
         ApprovalPending, Went;
    var t := h0.task.value;
    var o := ObservationOf(t, q.names.keys[8]);
    RoutesOf(h0.log, q, w, 8);
    RejectedIsSettled(q, w);
    if ObservationValid(o, q.names.keys[8]) { FinalFits(ViewOf(h0.log).p, q, w, t); }
    h, rc := Pass(h0, q, w, 9, ObservationRecord(o), ObservationValid(o, q.names.keys[8]), w.rejectedFinal);
    PassWent(h, rc, q, w, 9);
    if rc != OK { return; }
    RejectedHalts(h0, h, q, w, ObservationRecord(o));
    rc := ECANCELED;
  }

  // ----- Delivery -----

  function ReadyOf(q: Query, t: Task): Ready
    requires t.segment.Ended? && t.segment.runId.Some?
  {
    Ready(1, q.names.id, ReadySemantics, t.taskId, t.executionId, t.segment.runId.value, q.names.keys[8],
          ReferenceIdentityOnly)
  }

  /** The final result was taken. */
  ghost predicate AwaitsDelivery(h: Host, q: Query, w: World) {
    && Good(h, q, w, 9) && h.phase == Delivery && h.role == Execute && NoWorkers(h) && w.decision == 1
    && h.task == Some(ResumedTask(q, w).(taken := true)) && w.resumeWait.segment.Ended?
    && w.resumeWait.segment.status == COMPLETED && w.resumeWait.segment.code == OK
    && Takeable(ResumedTask(q, w), q.names.keys[8])
    && Taken(h.task.value, ViewOf(h.log).p, q.names, Execute, 8)
    && ReviewAt(ViewOf(h.log).p).Some? && ReviewAt(ViewOf(h.log).p).value.decision == Approve
  }

  predicate FinalTaken(q: Query, w: World) {
    && w.authorityDelivery && w.finalInspect == OK && w.finalTake == Ack
    && var t := ResumedTask(q, w);
       && t.segment.Ended? && t.segment.status == COMPLETED && t.segment.code == OK && Takeable(t, q.names.keys[8])
  }

  method DeliverStage(q: Query, w: World, h0: Host) returns (h: Host, rc: Rc)
    requires NamesOk(q.names) && WorldOk(w, q) && AfterReview(h0, q, w) && w.decision == 1 && w.resumeWait.rc == OK
    ensures rc == OK ==> Good(h, q, w, 10)
    ensures rc != OK ==> Halted(h, q, w) && 0 in h.trace.acknowledged
    ensures rc == OK <==> DeliverGood(q, w)
    ensures Went(h, rc, q, w, DeliverCourse(q, w))
  {
    hide Sound, Operational, Halted, GateStopped, StoppedAt, AfterReview, AwaitsDelivery, ResumedTask, Takeable,
         NoneTwice, Went, FinalCourse, ReadyCourse;
    h, rc := TakeFinal(q, w, h0);
    WentThrough(h, rc, q, w, FinalCourse(q, w));
    if rc != OK { return; }
    h, rc := ReadyStage(q, w, h);
  }

  method TakeFinal(q: Query, w: World, h0: Host) returns (h: Host, rc: Rc)
    requires NamesOk(q.names) && WorldOk(w, q) && AfterReview(h0, q, w) && w.decision == 1 && w.resumeWait.rc == OK
    ensures rc == OK ==> AwaitsDelivery(h, q, w)
    ensures rc != OK ==> Halted(h, q, w) && 0 in h.trace.acknowledged
    ensures rc == OK <==> FinalTaken(q, w)
    ensures Went(h, rc, q, w, FinalCourse(q, w))
  {
    hide Sound, Fits, Operational, Halted, GateStopped, StoppedAt, NoneTwice, ObservationValid, Taken, IntentAt,
         TaskOf, Went;
    h := h0.(phase := Delivery);
    var t := h.task.value;
    rc := if !w.authorityDelivery then EPERM
          else if w.finalInspect != OK then w.finalInspect
          else if t.segment.status != COMPLETED || t.segment.code != OK then EIO
          else OK;
    if rc != OK {
      TaskHalts(h, rc, q, w, 8);
      return;
    }
    h, rc := TakeDelivered(q, w, h);
  }

  method TakeDelivered(q: Query, w: World, h0: Host) returns (h: Host, rc: Rc)
    requires NamesOk(q.names) && WorldOk(w, q) && AfterReview(h0.(phase := Approval), q, w) && h0.phase == Delivery
    requires w.decision == 1 && w.resumeWait.rc == OK && w.authorityDelivery && w.finalInspect == OK
    requires Completed(w.resumeWait.segment)
    ensures rc == OK ==> AwaitsDelivery(h, q, w)
    ensures rc != OK ==> Halted(h, q, w) && 0 in h.trace.acknowledged
    ensures rc == OK <==> FinalTaken(q, w)
    ensures Went(h, rc, q, w, GateCheck(CreateCode(MayTake(ResumedTask(q, w), q.names.keys[8]), w.finalTake),
                                        Delivery, 9))
  {
    hide Sound, Fits, Operational, Halted, GateStopped, StoppedAt, NoneTwice, ObservationValid, Taken, IntentAt,
         TaskOf, Went;
    h := h0;
    var t := h.task.value;
    RoutesOf(h.log, q, w, 8);
    if Takeable(t, q.names.keys[8]) { FinalFits(ViewOf(h.log).p, q, w, t); }
    h, rc := Take(q, w, h, 8, Execute, w.finalTake);
  }

  lemma ReadyFits(p: Slots, q: Query, w: World, t: Task)
    requires Taken(t, p, q.names, Execute, 8) && w.decision == 1
    requires t.segment.status == COMPLETED && t.segment.code == OK
    requires ObservationValid(ObservationOf(t, q.names.keys[8]), q.names.keys[8])
    requires ReviewAt(p).Some? && ReviewAt(p).value.decision == Approve
    requires |w.workers| == |w.workerWait| == 2 && t == ResumedTask(q, w).(taken := true)
    ensures t.segment.runId.Some? && Fits(p, q, w, 9, ReadyRecord(ReadyOf(q, t)))
  {
    assert EndedShape(ObservationOf(t, q.names.keys[8]));
    hide RouteValid, RouterId, Matches;
  }

  lemma TakenStays(p: Slots, t: Task, n: Names, r: Record)
    requires Taken(t, p, n, Execute, 8)
    ensures Taken(t, p[9 := Some(r)], n, Execute, 8)
  {
  }

  method ReadyStage(q: Query, w: World, h0: Host) returns (h: Host, rc: Rc)
    requires NamesOk(q.names) && AwaitsDelivery(h0, q, w) && |w.workers| == |w.workerWait| == 2
    ensures rc == OK ==> Good(h, q, w, 10)
    ensures rc != OK ==> Halted(h, q, w) && 0 in h.trace.acknowledged
    ensures rc == OK <==> w.finalDomain == OK && w.deliver == OK && w.ready == Ack && w.afterReady == OK
    ensures Went(h, rc, q, w, ReadyCourse(w))
  {
    hide Sound, Fits, Operational, Halted, GateStopped, StoppedAt, NoneTwice, ObservationValid, Taken, TaskOf, Went;
    h := h0;
    var t := h.task.value;
    rc := if w.finalDomain != OK then w.finalDomain else w.deliver;
    if rc != OK {
      TaskHalts(h, rc, q, w, 9);
      return;
    }
    h, rc := PutReady(q, w, h.(phase := DeliveryAudit));
  }

  lemma AuditHalts(h: Host, rc: Rc, q: Query, w: World)
    requires rc != OK && Good(h, q, w, 10) && h.phase == DeliveryAudit && h.role == Execute && NoWorkers(h)
    requires |w.workers| == |w.workerWait| == 2 && h.task == Some(ResumedTask(q, w).(taken := true))
    requires Taken(h.task.value, ViewOf(h.log).p, q.names, Execute, 8)
    ensures Halted(h, q, w) && 0 in h.trace.acknowledged
    ensures Went(h, rc, q, w, Halts(rc, DeliveryAudit, 11, false))
  {
    hide Sound, Halted, StoppedAt, Taken, Went;
    TaskHalts(h, rc, q, w, 10);
  }

  /** The ready record, and the deadline behind it. */
  method PutReady(q: Query, w: World, h0: Host) returns (h: Host, rc: Rc)
    requires NamesOk(q.names) && AwaitsDelivery(h0.(phase := Delivery), q, w) && h0.phase == DeliveryAudit
    requires |w.workers| == |w.workerWait| == 2
    ensures rc == OK ==> Good(h, q, w, 10)
    ensures rc != OK ==> Halted(h, q, w) && 0 in h.trace.acknowledged
    ensures rc == OK <==> w.ready == Ack && w.afterReady == OK
    ensures Went(h, rc, q, w, Then(GateCheck(CreateCode(true, w.ready), DeliveryAudit, 10),
                                   Check(w.afterReady, DeliveryAudit, 11)))
  {
    hide Sound, Fits, Operational, Halted, GateStopped, StoppedAt, NoneTwice, ObservationValid, Taken, TaskOf, Went;
    h := h0;
    var t := h.task.value;
    SameObservation(t, q.names.keys[8]);
    ReadyFits(ViewOf(h.log).p, q, w, t);
    h, rc := Pass(h, q, w, 10, ReadyRecord(ReadyOf(q, t)), true, w.ready);
    PassWent(h, rc, q, w, 10);
    if rc != OK { return; }
    TakenStays(ViewOf(h0.log).p, t, q.names, ReadyRecord(ReadyOf(q, t)));
    if w.afterReady != OK {
      AuditHalts(h, w.afterReady, q, w);
      return h, w.afterReady;
    }
    NothingWrong(h, rc, q, w);
  }

  lemma SameObservation(t: Task, id: string)
    requires t.segment.Ended?
    ensures ObservationOf(t.(taken := false), id) == ObservationOf(t, id)
  {
  }

  // ----- The forward path -----

  /** Nothing was acknowledged: the namespace is not ours. */
  ghost predicate Unreserved(h: Host, q: Query, w: World) {
    && h.trace.acknowledged == {} && (h.trace.gateFailed ==> h.trace.failedGate == 0) && Owned(h.log)
    && (h.log == [] || (|h.log| == 1 && h.trace.gateFailed && w.manifest.Lost? && Survives(h.log, VerdictOf(q, w))))
  }

  /** The forward path delivers exactly if every answer is good. Otherwise it ends without the
      reservation, at a failed gate, or at an operational stop. */
  method Forward(q: Query, w: World) returns (h: Host, rc: Rc)
    requires NamesOk(q.names) && WorldOk(w, q)
    ensures rc == OK ==> Good(h, q, w, 10) && w.decision == 1
    ensures rc != OK ==> Unreserved(h, q, w) || Halted(h, q, w)
    ensures rc == OK <==> Smooth(q, w)
    ensures 0 in h.trace.acknowledged <==> ReserveGood(q, w)
    ensures FirstGateFails(q, w) ==> h.trace.gateFailed && h.trace.failedGate == 1
    ensures ReachesExecute(q, w) && w.executeWait.rc != OK ==>
      rc != OK && StoppedAt(h, q, w, 6) && h.task == Some(ExecuteTask(q, w)) && h.phase == Execution
    ensures ReachesExecute(q, w) && PendingGood(q, w) && ReviewGood(q, w) && RejectedGood(q, w) ==>
      rc != OK && StoppedAt(h, q, w, 9)
    ensures Went(h, rc, q, w, RunCourse(q, w))
  {
    hide Sound, Table, Operational, Halted, GateStopped, StoppedAt, Admitted, WorldOk, NamesOk, FanInGood,
         AggregateGood, AwaitsReview, ExecuteTask, AfterReview, Owned, Survives, StoppedAt, PendingGood, ReviewGood,
         RejectedGood, DeliverGood, ExecuteGood, Halted, ValidId, Went, ReserveCourse, WorkersCourse, FanInCourse,
         AggregateCourse, ConcludeCourse;
    h := Host(Trace({}, 0, false), Admission, [None, None], None, Aggregate, []);
    EmptyIsOwned();
    WorldSizes(q, w);
    if !ValidId(q.names.id) || !Text(q.parent, 128) {
      Unadmitted(h, q, w);
      return h, EINVAL;
    }
    h, rc := Reserve(q, w, h);
    WentThrough(h, rc, q, w, ReserveCourse(q, w));
    if rc != OK { return; }
    h, rc := SubmitWorkers(q, w, h.(phase := Workers));
    WentThrough(h, rc, q, w, WorkersCourse(q, w));
    if rc != OK { return; }
    h, rc := FanIn(q, w, h);
    WentThrough(h, rc, q, w, FanInCourse(q, w));
    if rc != OK { return; }
    h, rc := AggregateStage(q, w, h);
    WentThrough(h, rc, q, w, AggregateCourse(q, w));
    if rc != OK { return; }
    h, rc := Conclude(q, w, h);
  }

  lemma WorldSizes(q: Query, w: World)
    requires WorldOk(w, q)
    ensures |w.workers| == |w.workerWait| == 2
  {
  }

  lemma Unadmitted(h: Host, q: Query, w: World)
    requires h.trace == Trace({}, 0, false) && h.phase == Admission && (!ValidId(q.names.id) || !Text(q.parent, 128))
    ensures Went(h, EINVAL, q, w, ReserveCourse(q, w))
  {
    assert Below(0) == {};
  }

  /** The execution with its review, and the delivery. */
  method Conclude(q: Query, w: World, h0: Host) returns (h: Host, rc: Rc)
    requires NamesOk(q.names) && WorldOk(w, q) && Good(h0, q, w, 5) && NoTasks(h0)
    ensures rc == OK ==> Good(h, q, w, 10) && w.decision == 1
    ensures rc != OK ==> Halted(h, q, w)
    ensures 0 in h.trace.acknowledged
    ensures rc == OK <==> ExecuteGood(q, w) && PendingGood(q, w) && ReviewGood(q, w) && DeliverGood(q, w)
    ensures ExecuteGood(q, w) && w.executeWait.rc != OK ==>
      rc != OK && StoppedAt(h, q, w, 6) && h.task == Some(ExecuteTask(q, w)) && h.phase == Execution
    ensures ExecuteGood(q, w) && PendingGood(q, w) && ReviewGood(q, w) && RejectedGood(q, w) ==>
      rc != OK && StoppedAt(h, q, w, 9)
    ensures Went(h, rc, q, w, ConcludeCourse(q, w))
  {
    hide Sound, Halted, WorldOk, NamesOk, AwaitsReview, AfterReview, ExecuteTask, StoppedAt, NoTasks, ExecuteGood,
         ReviewGood, Takeable, ApprovalPending, ObservationValid, ResumedTask;
    h, rc := ExecuteStage(q, w, h0);
    if rc != OK { return; }
    h, rc := ReviewStage(q, w, h);
    if rc != OK { return; }
    h, rc := DeliverStage(q, w, h);
  }

  lemma EmptyIsOwned()
    ensures Owned([])
  {
  }

  lemma ManifestSurvives(q: Query, w: World)
    requires w.deadline <= MAX_EXACT
    ensures var e := Write(None, ManifestRecord(ManifestOf(q, w)));
      Sound([e], q, w, 0) && Owned([e]) && Survives([e], VerdictOf(q, w))
  {
    hide ManifestOf, RecordsOk;
    var e := Write(None, ManifestRecord(ManifestOf(q, w)));
    ManifestWritten(q, w);
    ViewOfAppend([], e);
    assert [] + [e] == [e] && [e][..1] == [e];
    NormalVerdict(ViewOf([e]), q, w, 0);
  }

  /** Every suffix's key is built in the bounded buffer; for a valid id none is refused. */
  method ReserveKeys(n: Names) returns (rc: Rc, ids: seq<(string, string)>)
    requires KeysMade(n)
    ensures ValidId(n.id) ==> rc == OK && ids == PhaseIds(n)
  {
    rc, ids := OK, [];
    for i := 0 to 16
      invariant rc == OK && (ValidId(n.id) ==> ids == PhaseIds(n)[..i])
    {
      var key := MakeKey(n.id, n.suffixes[i]);
      if key.None? { return ENOBUFS, ids; }
      ids := ids + [(n.suffixes[i], key.value)];
    }
  }

  method CreateManifest(q: Query, w: World, ids: seq<(string, string)>) returns (log: seq<Write>, rc: Rc)
    requires ids == PhaseIds(q.names) && w.deadline <= MAX_EXACT
    ensures rc == CreateCode(true, w.manifest)
    ensures if w.manifest.Refused? then log == [] else
      |log| == 1 && ValidLog(log) && Sound(log, q, w, 0) && Survives(log, VerdictOf(q, w))
    ensures Owned(log)
  {
    hide Sound, Survives, PhaseIds;
    var e := Write(None, ManifestRecord(ManifestOf(q, w).(phaseIds := ids)));
    ManifestSurvives(q, w);
    assert [] + [e] == [e];
    var (committed, code) := Commit([], e, true, w.manifest);
    log, rc := committed, code;
  }

  method Reserve(q: Query, w: World, h0: Host) returns (h: Host, rc: Rc)
    requires NamesOk(q.names) && WorldOk(w, q) && ValidId(q.names.id) && Text(q.parent, 128)
    requires h0 == Host(Trace({}, 0, false), Admission, [None, None], None, Aggregate, [])
    ensures rc == OK ==> Good(h, q, w, 0) && NoTasks(h)
    ensures rc != OK ==> Unreserved(h, q, w)
    ensures rc == OK <==> ReserveGood(q, w)
    ensures Went(h, rc, q, w, ReserveCourse(q, w))
  {
    hide Sound, Survives, NoneTwice, PhaseIds, KeysApart, KeysMade, ManifestOf, ValidId, TablesAgree;
    h := h0.(phase := Manifesting);
    var ids: seq<(string, string)>;
    rc, ids := ReserveKeys(q.names);
    if w.deadline > MAX_EXACT {
      rc := ERANGE;
    } else if rc == OK {
      var log;
      log, rc := CreateManifest(q, w, ids);
      h := h.(log := log);
    }
    FirstGate();
    var trace := Gate(q.names, h.trace, q.names.gates[0], rc, 0);
    h := h.(trace := trace);
  }

  lemma FirstGate()
    ensures Below(0) == {} && {} + {0} == Below(1)
  {
  }
}
