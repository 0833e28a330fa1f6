/** What the records behind the normal ones say, in terms of the answers that the run was given. */
module ReportContents {
  import opened ReportKeys
  import opened ReportRecords
  import opened ReportTasks
  import opened ReportInspector
  import opened ReportWriter
  import opened ReportStages
  import opened ReportCleanup
  import opened ReportRun

  // ----- Where a run can halt -----

  /** The phases with the gates that are acknowledged in them. */
  predicate Place(phase: Phase, passed: nat, gate: bool) {
    match phase
    case Admission => passed == 0 && !gate
    case Manifesting => passed == 0 && gate
    case Workers => 1 <= passed <= 4 && (gate ==> passed <= 3)
    case Aggregation => 4 <= passed <= 6 && (gate ==> passed <= 5)
    case Execution => 6 <= passed <= 7 && (gate ==> passed == 6)
    case Approval => if gate then 7 <= passed <= 9 else 8 <= passed <= 10
    case Delivery => 9 <= passed <= 10 && (gate ==> passed == 9)
    case DeliveryAudit => if gate then passed == 10 else passed == 11
    case _ => false
  }

  predicate Placed(c: Course) {
    c.Halts? ==> Place(c.phase, c.passed, c.gate)
  }

  lemma CoursePlaced(q: Query, w: World)
    requires |w.workers| == |w.workerWait| == 2
    ensures Placed(RunCourse(q, w))
  {
    FirstPlaced(q, w);
    AggregatePlaced(q, w);
    ExecutePlaced(q, w);
    ReviewPlaced(q, w);
    DeliverPlaced(q, w);
    hide ReserveCourse, WorkersCourse, FanInCourse, AggregateCourse, ExecuteCourse, ReviewCourse, DeliverCourse,
         Place;
  }

  lemma FirstPlaced(q: Query, w: World)
    requires |w.workers| == |w.workerWait| == 2
    ensures Placed(ReserveCourse(q, w)) && Placed(WorkersCourse(q, w)) && Placed(FanInCourse(q, w))
  {
    hide IntentValid, TaskOf, CohortValid, ValidId;
  }

  lemma AggregatePlaced(q: Query, w: World)
    ensures Placed(AggregateCourse(q, w))
  {
    hide IntentValid, TaskOf, MayTake, Completed;
  }

  lemma ExecutePlaced(q: Query, w: World)
    ensures Placed(ExecuteCourse(q, w))
  {
    hide IntentValid, TaskOf, MayTake, ApprovalPending, SegmentCode;
  }

  lemma ReviewPlaced(q: Query, w: World)
    ensures Placed(ReviewCourse(q, w))
  {
    hide MayReview, MayObserve, DecisionCode;
  }

  lemma DeliverPlaced(q: Query, w: World)
    ensures Placed(DeliverCourse(q, w))
  {
    hide MayTake, Completed, ResumedTask;
  }

  // ----- The tasks that a stop finds -----

  /** The roles that are still retained there. */
  function Retained(phase: Phase, passed: nat): seq<nat> {
    match phase
    case Workers => if passed <= 1 then [] else if passed == 2 then [0] else [0, 1]
    case Aggregation => if passed == 4 then [] else [2]
    case Execution => if passed == 6 then [] else [3]
    case Approval => [3]
    case Delivery => [3]
    case DeliveryAudit => [3]
    case _ => []
  }

  /** Which of them were moved out before, under an observation of their own. */
  predicate MovedBefore(phase: Phase, passed: nat) {
    match phase
    case Aggregation => passed == 6
    case Approval => passed == 8
    case Delivery => passed == 10
    case DeliveryAudit => true
    case _ => false
  }

  /** The execution has its second segment once the review is recorded. */
  predicate SecondSegment(r: nat, passed: nat) { r == 3 && passed >= 9 }

  /** The last wait for a role's task; a worker that nobody waited for is as it was admitted. */
  function LastWait(w: World, r: nat, passed: nat): Waited
    requires |w.workerWait| == 2 && r < 4
  {
    if r < 2 then (if passed >= 3 && w.adopt == OK then w.workerWait[r] else Waited(OK, Running, false, true))
    else if r == 2 then w.aggregateWait
    else if passed >= 9 then w.resumeWait else w.executeWait
  }

  function DrainEnd(w: World, r: nat): Segment
    requires |w.drainWorkers| == 2 && r < 4
  {
    if r < 2 then w.drainWorkers[r] else w.drainTask
  }

  /** How the task is found after the drain: as the last wait saw its end, or else as the drain did. */
  function Final(w: World, r: nat, passed: nat): Waited
    requires |w.workerWait| == |w.drainWorkers| == 2 && r < 4
  {
    var x := LastWait(w, r, passed);
    if x.segment.Ended? then x else x.(segment := DrainEnd(w, r))
  }

  /** Only a segment that the drain itself saw end can still ask for a review. */
  predicate StillAsks(w: World, r: nat, passed: nat)
    requires |w.workerWait| == |w.drainWorkers| == 2 && r < 4
  {
    && r == 3 && LastWait(w, r, passed).segment.Running? && w.drainTask.Ended?
    && w.drainTask.status == 3 && w.drainTask.pending && !(passed >= 9 && w.decision == 0)
  }

  function ExecutionId(w: World, r: nat, passed: nat): string
    requires |w.workers| == 2 && r < 4
  {
    if SecondSegment(r, passed) then w.resumeId else SubmissionOf(w, r).taskId
  }

  /** A cleanup row observes a retained task that was not moved out before. */
  ghost predicate RowTells(p: Slots, q: Query, w: World, phase: Phase, passed: nat, r: nat)
    requires Answering(w) && r < 4
  {
    p[11 + r].Some? ==>
      && r in Retained(phase, passed) && !MovedBefore(phase, passed) && p[11 + r].value.ObservationRecord?
      && ObservationTells(p[11 + r].value.obs, q.names.keys[11 + r], q, SubmissionOf(w, r), r,
                          q.names.keys[IntentSlot(r)], ExecutionId(w, r, passed), Final(w, r, passed),
                          StillAsks(w, r, passed), if SecondSegment(r, passed) then 1 else 0)
  }

  /** An entry of the stop record: whose task, which observation stands for it, and how it was found. */
  ghost predicate EntryTells(e: StopEntry, q: Query, w: World, phase: Phase, passed: nat, r: nat)
    requires Answering(w) && r < 4
  {
    var moved := MovedBefore(phase, passed);
    && e.role == (match r case 0 => WorkerA case 1 => WorkerB case 2 => Aggregate case _ => Execute)
    && e.observationId == q.names.keys[if !moved then 11 + r else if r == 2 then 4 else if passed >= 9 then 8 else 6]
    && e.boundary == (if moved then BeforeTransfer else AfterDrain) && e.taken == moved
    && e.taskId == SubmissionOf(w, r).taskId && e.executionId == ExecutionId(w, r, passed)
    && e.threadId == q.names.keys[IntentSlot(r)]
    && Final(w, r, passed).segment.Ended? && e.status == Final(w, r, passed).segment.status
    && e.code == Final(w, r, passed).segment.code && e.unresponsive == Final(w, r, passed).unresponsive
    && e.approvalPending == StillAsks(w, r, passed)
  }

  /** The task of a role where the run halts, after the drain. */
  ghost predicate FoundAs(t: Task, q: Query, w: World, phase: Phase, passed: nat, r: nat)
    requires Answering(w) && r < 4
  {
    && t.taskId == SubmissionOf(w, r).taskId && t.executionId == ExecutionId(w, r, passed)
    && RouteTells(t.route, q, SubmissionOf(w, r), r, q.names.keys[IntentSlot(r)])
    && t.segment == Final(w, r, passed).segment && t.segment.Ended?
    && t.unresponsive == Final(w, r, passed).unresponsive && t.authorityCurrent == Final(w, r, passed).authorityCurrent
    && ApprovalPending(t) == StillAsks(w, r, passed)
    && t.resumes == (if SecondSegment(r, passed) then 1 else 0) && t.taken == MovedBefore(phase, passed)
  }

  /** A task that is drained keeps what it is; a running segment ends as the drain sees it, and a review
      that waits already is cancelled. */
  lemma DrainMeans(t: Task, end: Segment)
    requires t.segment.Ended? || end.Ended?
    ensures var d := Drain(t, end);
      && d == t.(segment := d.segment, reviewCancelled := d.reviewCancelled)
      && d.segment == (if t.segment.Ended? then t.segment else end)
      && (ApprovalPending(d) <==>
            && t.segment.Running? && t.route.maxTurns != 0 && d.segment.status == 3 && d.segment.pending
            && !t.reviewCancelled)
  {
  }

  lemma Found(t: Task, q: Query, w: World, phase: Phase, passed: nat, r: nat)
    requires Answering(w) && r < 4 && (t.segment.Ended? || DrainEnd(w, r).Ended?)
    requires t.taskId == SubmissionOf(w, r).taskId && t.executionId == ExecutionId(w, r, passed)
    requires RouteTells(t.route, q, SubmissionOf(w, r), r, q.names.keys[IntentSlot(r)])
    requires var x := LastWait(w, r, passed);
      t.segment == x.segment && t.unresponsive == x.unresponsive && t.authorityCurrent == x.authorityCurrent
    requires t.reviewCancelled == (r == 3 && passed >= 9 && w.decision == 0)
    requires t.resumes == (if SecondSegment(r, passed) then 1 else 0) && t.taken == MovedBefore(phase, passed)
    ensures FoundAs(Drain(t, DrainEnd(w, r)), q, w, phase, passed, r)
  {
    DrainMeans(t, DrainEnd(w, r));
    hide Drain, ApprovalPending, SubmissionOf, ExecutionId, LastWait, MovedBefore;
  }

  lemma WorkerFound(q: Query, w: World, passed: nat, k: nat)
    requires Answering(w) && k < 2 && 1 <= passed <= 4
    ensures var t := KeptWorker(q, w, Workers, passed, k);
      && (t.Some? <==> k in Retained(Workers, passed))
      && (t.Some? ==> FoundAs(Drain(t.value, w.drainWorkers[k]), q, w, Workers, passed, k))
  {
    hide FoundAs, Drain;
    var t := KeptWorker(q, w, Workers, passed, k);
    if t.Some? { Found(t.value, q, w, Workers, passed, k); }
  }

  lemma TaskFound(q: Query, w: World, phase: Phase, passed: nat)
    requires Answering(w) && Place(phase, passed, false) && passed > 0 && phase != Workers
    ensures var t, r := KeptTask(q, w, phase, passed), if phase == Aggregation then 2 else 3;
      && (t.Some? <==> Retained(phase, passed) == [r]) && (t.None? ==> Retained(phase, passed) == [])
      && (t.Some? ==> FoundAs(Drain(t.value, w.drainTask), q, w, phase, passed, r))
  {
    hide FoundAs, Drain;
    var t := KeptTask(q, w, phase, passed);
    if t.Some? { Found(t.value, q, w, phase, passed, if phase == Aggregation then 2 else 3); }
  }

  // ----- What the records say -----

  lemma EntryFound(t: Task, q: Query, w: World, phase: Phase, passed: nat, r: nat)
    requires Answering(w) && r < 4 && FoundAs(t, q, w, phase, passed, r) && r in Retained(phase, passed)
    requires Place(phase, passed, false)
    ensures EntryTells(EntryOf(t, r, q.names), q, w, phase, passed, r)
  {
    hide Final, StillAsks, ExecutionId, SubmissionOf, ApprovalPending;
  }

  lemma RowFound(t: Task, p: Slots, q: Query, w: World, phase: Phase, passed: nat, r: nat)
    requires Answering(w) && r < 4 && FoundAs(t, q, w, phase, passed, r) && r in Retained(phase, passed)
    requires p[11 + r].Some? ==>
      !t.taken && p[11 + r].value == ObservationRecord(ObservationOf(t, q.names.keys[11 + r]))
    ensures RowTells(p, q, w, phase, passed, r)
  {
    hide Final, StillAsks, ExecutionId, SubmissionOf, ApprovalPending, MovedBefore, Retained;
  }

  /** The stop record, entry by entry. */
  ghost predicate StopSaid(p: Slots, q: Query, w: World, c: Course)
    requires Answering(w) && c.Halts? && c.passed <= 11
  {
    p[10].Some? ==>
      && p[10].value.StopRecord?
      && var s := p[10].value.stop;
         && s.header == Header(1, StopSemantics, q.names.id, q.parent, OriginMonotonic)
         && s.phase == c.phase && s.code == c.code && s.observed == w.stopNow && s.gates == GateList(q.names, c.passed)
         && |s.tasks| == |Retained(c.phase, c.passed)|
         && forall i :: 0 <= i < |s.tasks| ==>
              EntryTells(s.tasks[i], q, w, c.phase, c.passed, Retained(c.phase, c.passed)[i])
  }

  lemma HostFound(q: Query, w: World, c: Course)
    requires Answering(w) && c.Halts? && c.passed > 0 && !c.gate && Place(c.phase, c.passed, false)
    ensures var h, kept := Drained(HostAt(q, w, c), w), Retained(c.phase, c.passed);
      && AllEnded(h)
      && (forall r :: 0 <= r < 4 ==> (RoleTask(h, r).Some? <==> r in kept))
      && (forall r :: 0 <= r < 4 && r in kept ==> FoundAs(RoleTask(h, r).value, q, w, c.phase, c.passed, r))
  {
    hide FoundAs, Drain, KeptTask, KeptWorker;
    if c.phase == Workers {
      WorkerFound(q, w, c.passed, 0);
      WorkerFound(q, w, c.passed, 1);
      OnlyWorkers(q, w, c.passed);
    } else {
      TaskFound(q, w, c.phase, c.passed);
      NoWorkersKept(q, w, c.phase, c.passed);
    }
  }

  lemma OnlyWorkers(q: Query, w: World, passed: nat)
    ensures KeptTask(q, w, Workers, passed).None?
  {
  }

  lemma NoWorkersKept(q: Query, w: World, phase: Phase, passed: nat)
    requires |w.workers| == |w.workerWait| == 2 && phase != Workers
    ensures KeptWorker(q, w, phase, passed, 0).None? && KeptWorker(q, w, phase, passed, 1).None?
  {
  }

  lemma EntriesFound(h: Host, q: Query, w: World, c: Course)
    requires Answering(w) && c.Halts? && c.passed > 0 && !c.gate && Place(c.phase, c.passed, false)
    requires |h.workers| == 2 && AllEnded(h)
    requires h.task.Some? ==> TaskRole(h) == if c.phase == Aggregation then 2 else 3
    requires forall r :: 0 <= r < 4 ==> (RoleTask(h, r).Some? <==> r in Retained(c.phase, c.passed))
    requires forall r :: 0 <= r < 4 && r in Retained(c.phase, c.passed) ==>
      FoundAs(RoleTask(h, r).value, q, w, c.phase, c.passed, r)
    ensures var entries, kept := Entries(h, q.names, 3), Retained(c.phase, c.passed);
      |entries| == |kept| && forall i :: 0 <= i < |entries| ==> EntryTells(entries[i], q, w, c.phase, c.passed, kept[i])
  {
    hide FoundAs, EntryOf, EntryTells;
    var kept := Retained(c.phase, c.passed);
    forall r | 0 <= r < 4 && r in kept
      ensures EntryTells(EntryOf(RoleTask(h, r).value, r, q.names), q, w, c.phase, c.passed, r)
    {
      EntryFound(RoleTask(h, r).value, q, w, c.phase, c.passed, r);
    }
    assert h.workers[0].Some? <==> RoleTask(h, 0).Some?;
    assert h.workers[1].Some? <==> RoleTask(h, 1).Some?;
    assert RoleTask(h, 2).Some? || RoleTask(h, 3).Some? <==> h.task.Some?;
  }

  /** After an operational stop the stop record carries the first bad answer's code and its phase, and lists
      exactly the tasks that were still retained there, each as it was found after the drain; every
      cleanup row observes one of them that had not been moved out before. */
  lemma StopAndRowsTell(q: Query, w: World, log: seq<Write>, trace: Trace, rc: Rc)
    requires WorldOk(w, q) && Answering(w) && Says(q, w, RunCourse(q, w), log, trace, rc)
    requires RunCourse(q, w).Halts? && RunCourse(q, w).passed > 0 && !RunCourse(q, w).gate
    ensures RunCourse(q, w).passed <= 11 && StopSaid(ViewOf(log).p, q, w, RunCourse(q, w))
    ensures forall r :: 0 <= r < 4 ==>
      RowTells(ViewOf(log).p, q, w, RunCourse(q, w).phase, RunCourse(q, w).passed, r)
  {
    CoursePlaced(q, w);
    var c := RunCourse(q, w);
    hide RunCourse, WorldOk, Place, Retained, FoundAs, EntryTells, RowTells, GateList, Drained, RowOf, RoleTask,
         EntryOf, Says, HostAt, Entries;
    StopFacts(q, w, c, log, trace, rc);
    HostFound(q, w, c);
    var h := Drained(HostAt(q, w, c), w);
    DrainedRole(q, w, c);
    EntriesFound(h, q, w, c);
    forall r | 0 <= r < 4
      ensures RowTells(ViewOf(log).p, q, w, c.phase, c.passed, r)
    {
      assert RowOf(h, q.names, ViewOf(log).p, r);
      RowSaid(h, ViewOf(log).p, q, w, c, r);
    }
  }

  lemma StopFacts(q: Query, w: World, c: Course, log: seq<Write>, trace: Trace, rc: Rc)
    requires Answering(w) && Says(q, w, c, log, trace, rc) && c.Halts? && c.passed > 0 && !c.gate
    ensures c.passed <= 11 && ValidLog(log)
    ensures var h := Drained(HostAt(q, w, c), w);
      && AllEnded(h) && RowsTold(h, q.names, log)
      && (ViewOf(log).p[10].Some? ==>
            ViewOf(log).p[10].value
              == StopRecord(StopOf(q, w, h.phase, c.code, Entries(h, q.names, 3), GateList(q.names, c.passed))))
  {
    hide GateList, AuditCode, CleanupTells, Drained, RowsTold, Entries, HostAt, StopOf;
  }

  lemma DrainedRole(q: Query, w: World, c: Course)
    requires Answering(w) && c.Halts?
    ensures var h := Drained(HostAt(q, w, c), w);
      h.phase == c.phase && TaskRole(h) == if c.phase == Aggregation then 2 else 3
  {
  }

  lemma RowSaid(h: Host, p: Slots, q: Query, w: World, c: Course, r: nat)
    requires Answering(w) && c.Halts? && |h.workers| == 2 && r < 4 && RowOf(h, q.names, p, r)
    requires RoleTask(h, r).Some? <==> r in Retained(c.phase, c.passed)
    requires r in Retained(c.phase, c.passed) ==> FoundAs(RoleTask(h, r).value, q, w, c.phase, c.passed, r)
    ensures RowTells(p, q, w, c.phase, c.passed, r)
  {
    hide FoundAs, RoleTask, Retained;
    if r in Retained(c.phase, c.passed) { RowFound(RoleTask(h, r).value, p, q, w, c.phase, c.passed, r); }
  }

  // ----- The codes of the families -----

  lemma ReachesMeansThrough(q: Query, w: World)
    requires |w.workers| == |w.workerWait| == 2 && ReachesExecute(q, w)
    ensures ReserveCourse(q, w).Through? && WorkersCourse(q, w).Through? && FanInCourse(q, w).Through?
    ensures AggregateCourse(q, w).Through?
    ensures ExecuteCourse(q, w) == ExecuteEnd(q, w)
  {
    hide IntentValid, TaskOf, GroupValid, CohortOf, ValidId, ObservationValid, ExecuteEnd;
  }

  /** A timeout stops with the code of the wait, and a rejection as cancelled. */
  lemma FamilyCodes(q: Query, w: World)
    requires |w.workers| == |w.workerWait| == 2
    ensures TimesOut(q, w) ==> RunCourse(q, w) == Halts(w.executeWait.rc, Execution, 7, false)
    ensures RejectedFamily(q, w) ==> RunCourse(q, w) == Halts(ECANCELED, Approval, 10, false)
    ensures FirstGateFails(q, w) ==> RunCourse(q, w).Halts? && RunCourse(q, w).phase == Workers
                                     && RunCourse(q, w).passed == 1 && RunCourse(q, w).gate
  {
    hide ReachesExecute, ReserveCourse, WorkersCourse, FanInCourse, AggregateCourse, ExecuteEnd, ReviewCourse;
    if ReachesExecute(q, w) {
      ReachesMeansThrough(q, w);
      if w.executeWait.rc != OK { WaitFails(q, w); }
      if RejectedFamily(q, w) { Rejects(q, w); }
    }
    if FirstGateFails(q, w) { FirstGate(q, w); }
  }

  lemma WaitFails(q: Query, w: World)
    requires w.executeWait.rc != OK
    ensures ExecuteEnd(q, w) == Halts(w.executeWait.rc, Execution, 7, false)
  {
  }

  lemma Rejects(q: Query, w: World)
    requires PendingGood(q, w) && ReviewGood(q, w) && RejectedGood(q, w)
    ensures ExecuteEnd(q, w).Through? && ReviewCourse(q, w) == Halts(ECANCELED, Approval, 10, false)
  {
    hide ObservationValid, ReviewValid;
    assert ExecuteTask(q, w).segment.status == INTERRUPTED;
  }

  lemma FirstGate(q: Query, w: World)
    requires FirstGateFails(q, w)
    ensures ReserveCourse(q, w).Through?
    ensures WorkersCourse(q, w).Halts? && WorkersCourse(q, w).phase == Workers && WorkersCourse(q, w).passed == 1
    ensures WorkersCourse(q, w).gate
  {
    hide IntentValid, TaskOf;
  }
}
