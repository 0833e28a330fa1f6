/** What an accepting inspection proves about arbitrary store contents. */
module ReportSoundness {
  import opened Collections
  import opened ReportRecords
  import opened ReportInspector

  /** One task and one reviewed execution behind the intent, the pending observation, the
      review, the final observation and the ready record. */
  ghost predicate OneReviewedExecution(i: Intent, pending: Observation, review: Review, final: Observation,
                                       ready: Ready) {
    && i.taskId == pending.taskId == review.taskId == final.taskId == ready.taskId
    && review.admissionId == Some(i.admissionId)
    && i.route.endpoint == pending.route.endpoint == review.endpoint == final.route.endpoint
    && i.route.model == pending.route.model == review.model == final.route.model
    && i.route.provider == pending.route.provider == review.provider == final.route.provider
    && i.route.threadId == pending.route.threadId == review.threadId == final.route.threadId
    && i.route.parentRunId == pending.route.parentRunId == review.parentRunId == final.route.parentRunId
    && pending.executionId == review.previousExecutionId && pending.executionId == i.taskId
    && review.executionId == final.executionId == ready.executionId
    && review.executionId != review.previousExecutionId
    && pending.runId == Some(review.sourceRunId) && pending.checkpointId == Some(review.sourceCheckpointId)
    && final.runId == Some(ready.runId)
    && ready.terminalObservationId == final.observationId
  }

  /** A first segment that completed, under the task and on the route of its admission. */
  ghost predicate Finished(o: Observation, i: Intent) {
    && o.taskId == i.taskId && o.executionId == i.taskId && o.resumes == 0 && o.status == 2 && o.code == 0
    && o.route.endpoint == i.route.endpoint && o.route.model == i.route.model && o.route.provider == i.route.provider
    && o.route.threadId == i.admissionId && i.route.threadId == i.admissionId
    && o.route.parentRunId == i.route.parentRunId && o.route.maxTurns == 0 && !o.approvalPending
  }

  /** The aggregation was fed by the two workers, on endpoints of their own, and completed itself. */
  ghost predicate OneAggregation(a: Intent, b: Intent, g: Group, i: Intent, final: Observation, parent: string) {
    && g.aggregation && g.parentRunId == parent && |g.members| == 2
    && Finished(g.members[0], a) && Finished(g.members[1], b) && Finished(final, i)
    && a.taskId != b.taskId && a.route.endpoint != b.route.endpoint
    && a.route.role == Run && b.route.role == Run && i.route.role == Plan
    && a.route.parentRunId == b.route.parentRunId == i.route.parentRunId == parent
  }

  lemma {:induction false} PrefixDown(p: Slots, i: nat, j: nat)
    requires PrefixOk(p) && i <= j < 10 && p[j].Some?
    ensures p[i].Some?
    decreases j - i
  {
    if i < j { PrefixDown(p, i, j - 1); }
  }

  lemma AllPresent(p: Slots)
    requires PrefixOk(p) && p[9].Some?
    ensures (forall i :: 0 <= i < 10 ==> p[i].Some?) && NormalCount(p) == 10
  {
    forall i | 0 <= i < 10
      ensures p[i].Some?
    {
      PrefixDown(p, i, 9);
    }
  }

  /** Nothing but the delivery audit can fail once the ready record exists. */
  lemma ReadyEndsLate(p: Slots, m: Manifest, q: Query)
    requires TailOk(p, m, q) && NormalCount(p) == 10
    requires (p[10].Some? ==> p[10].value.StopRecord?) && (p[15].Some? ==> p[15].value.FailureRecord?)
    ensures p[10].Some? ==> p[10].value.stop.phase == DeliveryAudit
    ensures p[15].Some? ==> p[15].value.failure.phase == DeliveryAudit
    ensures p[15].Some? && p[15].value.failure.GateFailure? ==> forall i :: 10 <= i < 15 ==> p[i].None?
  {
    hide EntriesOk, GateList, CleanupRowsOk, AttemptOk, NormalCount, Expected;
  }

  /** All ten phase records exist, the review approved, and the reviewed segment completed with
      identities that agree end to end. */
  ghost predicate Complete(p: Slots, q: Query) {
    && (forall i :: 0 <= i < 10 ==> p[i].Some? && Loads(q.names, i, p[i].value))
    && IntentAt(p, 5).Some? && ObsAt(p, 6).Some? && ReviewAt(p).Some? && ObsAt(p, 8).Some? && p[9].value.ReadyRecord?
    && ReviewAt(p).value.decision == Approve
    && ObsAt(p, 6).value.status == INTERRUPTED && ObsAt(p, 6).value.approvalPending
    && ObsAt(p, 8).value.status == COMPLETED && ObsAt(p, 8).value.code == 0
    && OneReviewedExecution(IntentAt(p, 5).value, ObsAt(p, 6).value, ReviewAt(p).value, ObsAt(p, 8).value,
                            p[9].value.ready)
    && IntentAt(p, 0).Some? && IntentAt(p, 1).Some? && p[2].value.GroupRecord? && IntentAt(p, 3).Some?
    && ObsAt(p, 4).Some?
    && OneAggregation(IntentAt(p, 0).value, IntentAt(p, 1).value, p[2].value.group, IntentAt(p, 3).value,
                      ObsAt(p, 4).value, q.parent)
  }

  lemma MembersFinished(p: Slots, q: Query)
    requires p[2].Some? && Loads(q.names, 2, p[2].value) && FanInOk(p, q)
    ensures p[2].value.GroupRecord? && |p[2].value.group.members| == 2 && p[2].value.group.aggregation
    ensures var g := p[2].value.group;
      forall k :: 0 <= k < 2 ==>
        && ObservationValid(g.members[k], q.names.keys[2]) && g.members[k].resumes == 0
        && g.members[k].status == COMPLETED && g.members[k].code == 0 && !g.members[k].approvalPending
    ensures Apart(p[2].value.group.members[0], p[2].value.group.members[1])
  {
    hide ObservationValid, RouterId;
    var g := p[2].value.group;
    assert MemberValid(g, g.members[0], q.names.keys[2]) && MemberValid(g, g.members[1], q.names.keys[2]);
  }

  lemma IntentStands(p: Slots, q: Query, r: nat)
    requires r < 4 && RoutesOk(p, q) && p[IntentSlot(r)].Some? && Loads(q.names, IntentSlot(r), p[IntentSlot(r)].value)
    ensures IntentAt(p, IntentSlot(r)).Some?
    ensures var i := IntentAt(p, IntentSlot(r)).value;
      && RouteOk(i.route, q, RoleAt(r)) && i.admissionId == q.names.keys[IntentSlot(r)]
  {
    assert RouteSlotOk(p, q, r);
  }

  lemma FirstHalf(p: Slots, q: Query)
    requires AllLoad(q.names, p) && RoutesOk(p, q) && ChainOk(p, q) && forall i :: 0 <= i < 10 ==> p[i].Some?
    ensures IntentAt(p, 0).Some? && IntentAt(p, 1).Some? && p[2].value.GroupRecord? && IntentAt(p, 3).Some?
    ensures ObsAt(p, 4).Some?
    ensures OneAggregation(IntentAt(p, 0).value, IntentAt(p, 1).value, p[2].value.group, IntentAt(p, 3).value,
                           ObsAt(p, 4).value, q.parent)
  {
    assert Loads(q.names, 0, p[0].value) && Loads(q.names, 1, p[1].value) && Loads(q.names, 2, p[2].value);
    assert Loads(q.names, 3, p[3].value) && Loads(q.names, 4, p[4].value);
    IntentStands(p, q, 0);
    IntentStands(p, q, 1);
    IntentStands(p, q, 2);
    MembersFinished(p, q);
    hide AllLoad, RoutesOk, PendingOk, ReviewOk, ExecuteFinalOk, CleanupSegmentOk, ReadyOk, RouterId, RouteValid;
  }

  lemma ChainIsComplete(p: Slots, q: Query)
    requires AllLoad(q.names, p) && RoutesOk(p, q) && ChainOk(p, q) && FinalStatusOk(p)
    requires forall i :: 0 <= i < 10 ==> p[i].Some?
    ensures Complete(p, q)
  {
    FirstHalf(p, q);
    hide FanInOk, AggregateFinalOk, CleanupSegmentOk, RoutesOk, OneAggregation;
    assert Loads(q.names, 5, p[5].value) && Loads(q.names, 6, p[6].value);
    assert Loads(q.names, 7, p[7].value) && Loads(q.names, 8, p[8].value);
  }

  /** An accepted report with a ready record is complete, and a stop or a failure beside it describes
      the audit of the delivery and nothing earlier. */
  lemma ReadyIsComplete(v: View, q: Query)
    requires Accepts(v, q) && v.p[9].Some?
    ensures Complete(v.p, q)
    ensures v.p[10].Some? ==> v.p[10].value.StopRecord? && v.p[10].value.stop.phase == DeliveryAudit
    ensures v.p[15].Some? ==> v.p[15].value.FailureRecord? && v.p[15].value.failure.phase == DeliveryAudit
    ensures v.p[15].Some? && v.p[15].value.failure.GateFailure? ==> forall i :: 10 <= i < 15 ==> v.p[i].None?
  {
    hide TailOk, ManifestOk, NoApprovalLeft, ChainOk, RoutesOk, FinalStatusOk, Complete, PrefixOk, ReservedOk,
         NormalCount;
    AllPresent(v.p);
    assert v.p[10].Some? ==> Loads(q.names, 10, v.p[10].value);
    assert v.p[15].Some? ==> Loads(q.names, 15, v.p[15].value);
    ReadyEndsLate(v.p, v.manifest.value.manifest, q);
    ChainIsComplete(v.p, q);
  }
}
