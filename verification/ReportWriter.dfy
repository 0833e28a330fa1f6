/** The audited report run: eleven ordered write-ahead gates, the drain, and the stop or
    failure records. Every answer of the outside world is a field of `World`. */
module ReportWriter {
  import opened Collections
  import opened ReportKeys
  import opened ReportRecords
  import opened ReportTasks
  import opened ReportInspector

  // ----- The outside world -----

  datatype Submission = Submission(request: Rc, taskId: string, endpoint: string, model: string, provider: string,
                                   answer: Answer)

  /** A supervised wait: its return code, the segment it saw last, and the task's standing then. */
  datatype Waited = Waited(rc: Rc, segment: Segment, unresponsive: bool, authorityCurrent: bool)

  datatype RoleAudit = RoleAudit(inspect: Rc, answer: Answer, project: Rc)

  datatype World = World(
    started: int, deadline: int, manifest: Answer,
    workers: seq<Submission>, workerWait: seq<Waited>, adopt: Rc, cohort: Rc, fanIn: Answer, bind: Rc,
    authorityAggregate: bool, aggregate: Submission, aggregateWait: Waited, aggregateInspect: Rc,
    aggregateTake: Answer, aggregateDomain: Rc, aggregateHandoff: Rc,
    authorityExecute: bool, execute: Submission, executeWait: Waited, executeInspect: Rc, pendingTake: Answer,
    beforeReview: Rc, decision: int, authorityReview: bool, afterReview: Rc, resumeId: string,
    review: Answer, resumeWait: Waited, rejectedFinal: Answer,
    authorityDelivery: bool, finalInspect: Rc, finalTake: Answer, finalDomain: Rc, deliver: Rc,
    ready: Answer, afterReady: Rc,
    drainWorkers: seq<Segment>, drainTask: Segment,
    stopBegin: Rc, audits: seq<RoleAudit>, stopBuild: Rc, stopNow: int, stop: Answer,
    failureBuild: Rc, failureNow: int, failure: Answer)

  predicate WaitedOk(w: Waited) {
    && (w.rc == OK ==> w.segment.Ended?)
    && (w.segment.Ended? ==> Terminal(w.segment))
  }

  /** What the clock, the Host bindings and the Execution layer guarantee. */
  predicate WorldOk(w: World, q: Query) {
    && 0 <= w.started < w.deadline <= w.started + MAX_TIMEOUT_MS
    && w.started <= w.stopNow <= w.failureNow
    && |w.workers| == 2 && |w.workerWait| == 2 && |w.drainWorkers| == 2 && |w.audits| == 4
    && (forall i :: 0 <= i < 2 ==>
          && (w.workers[i].endpoint, false) in q.bindings && WaitedOk(w.workerWait[i])
          && (w.cohort == OK ==> w.workerWait[i].segment.Ended?)
          && Terminal(w.drainWorkers[i]))
    && (w.aggregate.endpoint, false) in q.bindings && (w.execute.endpoint, true) in q.bindings
    && WaitedOk(w.aggregateWait) && WaitedOk(w.executeWait) && WaitedOk(w.resumeWait)
    && Terminal(w.drainTask)
  }

  // ----- The host -----

  /** The acknowledged mask as the set of its bit positions, and the failed gate. */
  datatype Trace = Trace(acknowledged: set<nat>, failedGate: nat, gateFailed: bool)

  datatype Host = Host(trace: Trace, phase: Phase, workers: seq<Option<Task>>, task: Option<Task>, role: Role,
                       log: seq<Write>)

  function Below(n: nat): (r: set<nat>)
    ensures forall i: nat :: i in r <==> i < n
  {
    if n == 0 then {} else Below(n - 1) + {n - 1}
  }

  /** A normal gate: remember the acknowledgement or the failure under the gate's index. */
  method Gate(n: Names, trace: Trace, suffix: string, rc: Rc, ghost g: nat) returns (r: Trace)
    requires NoneTwice(n.gates) && g < 11 && suffix == n.gates[g]
    ensures rc == OK ==> r == trace.(acknowledged := trace.acknowledged + {g})
    ensures rc != OK ==> r == trace.(failedGate := g, gateFailed := true)
  {
    r := trace;
    if rc != OK { r := r.(gateFailed := true); }
    for i := 0 to 11
      invariant i <= g && r == (if rc != OK then trace.(gateFailed := true) else trace)
    {
      if suffix == n.gates[i] {
        if rc != OK { r := r.(failedGate := i); } else { r := r.(acknowledged := r.acknowledged + {i}); }
        return;
      }
    }
  }

  // ----- Records -----

  function ManifestOf(q: Query, w: World): Manifest {
    Manifest(Header(1, ManifestSemantics, q.names.id, q.parent, OriginMonotonic), w.started, w.deadline,
             PhaseIds(q.names))
  }

  function PhaseIds(n: Names): seq<(string, string)> {
    seq(16, i requires 0 <= i < 16 => (n.suffixes[i], n.keys[i]))
  }

  function RouteOf(q: Query, s: Submission, role: Role): Route {
    Route(s.endpoint, s.model, s.provider, if role == Aggregate then Plan else Run,
          q.names.keys[IntentSlot(RoleIndex(role))], q.parent, if role == Execute then 2 else 0)
  }

  function TaskOf(q: Query, s: Submission, role: Role): Task {
    Task(q.names.keys[IntentSlot(RoleIndex(role))], s.taskId, s.taskId, RouteOf(q, s, role), Running, 0, false, false,
         true, false)
  }

  function IntentOf(t: Task): Intent { Intent(t.admissionId, t.taskId, t.route) }

  function ReviewOf(q: Query, t: Task, resumeId: string, approved: bool): Review
    requires t.segment.Ended? && t.segment.runId.Some? && t.segment.checkpointId.Some?
  {
    Review(q.names.keys[7], t.taskId, resumeId, t.executionId, Some(t.admissionId), t.route.endpoint, t.route.model,
           t.route.provider, t.route.threadId, t.route.parentRunId, t.segment.runId.value,
           t.segment.checkpointId.value, if approved then Approve else Reject, t.resumes + 1, t.route.maxTurns)
  }

  // ----- What the records say -----

  /** The submission of a role. */
  function SubmissionOf(w: World, r: nat): Submission
    requires |w.workers| == 2 && r < 4
  {
    if r < 2 then w.workers[r] else if r == 2 then w.aggregate else w.execute
  }

  /** Only the aggregation plans, and only the execution may propose tools, for two turns. */
  ghost predicate RouteTells(route: Route, q: Query, s: Submission, r: nat, key: string) {
    && route.endpoint == s.endpoint && route.model == s.model && route.provider == s.provider
    && route.role == (if r == 2 then Plan else Run) && route.threadId == key && route.parentRunId == q.parent
    && route.maxTurns == (if r == 3 then 2 else 0)
  }

  ghost predicate IntentTells(i: Intent, q: Query, s: Submission, r: nat, key: string) {
    i.admissionId == key && i.taskId == s.taskId && RouteTells(i.route, q, s, r, key)
  }

  /** An observation names the task and the execution, and says how its segment ended. */
  ghost predicate ObservationTells(o: Observation, id: string, q: Query, s: Submission, r: nat, key: string,
                                   execution: string, x: Waited, pending: bool, resumes: nat) {
    && o.observationId == id && o.taskId == s.taskId && o.executionId == execution && RouteTells(o.route, q, s, r, key)
    && x.segment.Ended? && o.status == x.segment.status && o.code == x.segment.code
    && o.runId == x.segment.runId && o.checkpointId == x.segment.checkpointId
    && o.runtimeStatus == x.segment.runtimeStatus && o.failureKind == x.segment.failureKind
    && o.unresponsive == x.unresponsive && o.authorityCurrent == x.authorityCurrent
    && o.approvalPending == pending && o.resumes == resumes
  }

  ghost predicate GroupTells(g: Group, q: Query, w: World)
    requires |w.workers| == |w.workerWait| == 2
  {
    && g.observationId == q.names.keys[2] && g.groupId == q.names.keys[16] && g.parentRunId == q.parent && g.aggregation
    && |g.members| == 2
    && forall k :: 0 <= k < 2 ==>
         ObservationTells(g.members[k], q.names.keys[2], q, w.workers[k], k, q.names.keys[k], w.workers[k].taskId,
                          w.workerWait[k], false, 0)
  }

  /** The review names the segment that it decides about and the one that it admits. */
  ghost predicate ReviewTells(r: Review, q: Query, w: World) {
    && r.reviewId == q.names.keys[7] && r.taskId == w.execute.taskId && r.previousExecutionId == w.execute.taskId
    && r.executionId == w.resumeId && r.admissionId == Some(q.names.keys[5]) && r.endpoint == w.execute.endpoint
    && r.model == w.execute.model && r.provider == w.execute.provider && r.threadId == q.names.keys[5]
    && r.parentRunId == q.parent && w.executeWait.segment.Ended?
    && w.executeWait.segment.runId == Some(r.sourceRunId)
    && w.executeWait.segment.checkpointId == Some(r.sourceCheckpointId)
    && r.decision == (if w.decision == 1 then Approve else Reject) && r.segment == 1 && r.maxTurns == 2
  }

  ghost predicate ReadyTells(r: Ready, q: Query, w: World) {
    && r.schema == 1 && r.reportId == q.names.id && r.semantics == ReadySemantics && r.taskId == w.execute.taskId
    && r.executionId == w.resumeId && w.resumeWait.segment.Ended? && w.resumeWait.segment.runId == Some(r.runId)
    && r.terminalObservationId == q.names.keys[8] && r.verification == ReferenceIdentityOnly
  }

  /** Every normal record says what the answers that the run was given say, and nothing else. */
  ghost predicate RecordTells(q: Query, w: World, i: nat, r: Record) {
    && |w.workers| == |w.workerWait| == 2
    && match i
       case 0 => r.IntentRecord? && IntentTells(r.intent, q, w.workers[0], 0, q.names.keys[0])
       case 1 => r.IntentRecord? && IntentTells(r.intent, q, w.workers[1], 1, q.names.keys[1])
       case 2 => r.GroupRecord? && GroupTells(r.group, q, w)
       case 3 => r.IntentRecord? && IntentTells(r.intent, q, w.aggregate, 2, q.names.keys[3])
       case 4 =>
         && r.ObservationRecord?
         && ObservationTells(r.obs, q.names.keys[4], q, w.aggregate, 2, q.names.keys[3], w.aggregate.taskId,
                             w.aggregateWait, false, 0)
       case 5 => r.IntentRecord? && IntentTells(r.intent, q, w.execute, 3, q.names.keys[5])
       case 6 =>
         && r.ObservationRecord?
         && ObservationTells(r.obs, q.names.keys[6], q, w.execute, 3, q.names.keys[5], w.execute.taskId,
                             w.executeWait, true, 0)
       case 7 => r.ReviewRecord? && ReviewTells(r.review, q, w)
       case 8 =>
         && r.ObservationRecord?
         && ObservationTells(r.obs, q.names.keys[8], q, w.execute, 3, q.names.keys[5], w.resumeId, w.resumeWait,
                             false, 1)
       case _ => r.ReadyRecord? && ReadyTells(r.ready, q, w)
  }

  ghost predicate Told(p: Slots, q: Query, w: World) {
    forall i :: 0 <= i < 10 && p[i].Some? ==> RecordTells(q, w, i, p[i].value)
  }

  /** The manifest names the report, its parent and its time window, and reserves every key. */
  ghost predicate ManifestTells(v: View, q: Query, w: World) {
    && v.manifest.Some? && v.manifest.value.ManifestRecord?
    && var m := v.manifest.value.manifest;
       && m.header == Header(1, ManifestSemantics, q.names.id, q.parent, OriginMonotonic)
       && m.started == w.started && m.deadline == w.deadline && |m.phaseIds| == 16
       && forall i :: 0 <= i < 16 ==> m.phaseIds[i] == (q.names.suffixes[i], q.names.keys[i])
  }

  lemma ManifestTold(v: View, q: Query, w: World)
    requires v.manifest == Some(ManifestRecord(ManifestOf(q, w)))
    ensures ManifestTells(v, q, w)
  {
  }

  // ----- How the view grows -----

  lemma ViewOfAppend(log: seq<Write>, w: Write)
    requires ValidLog(log) && ValidWrite(w)
    ensures ValidLog(log + [w]) && ViewOf(log + [w]) == Apply(ViewOf(log), w)
  {
    assert (log + [w])[..|log|] == log;
  }

  /** Exactly the first n normal records exist, and the inspection finds no fault in them. */
  ghost predicate Normal(v: View, q: Query, n: nat) {
    && RecordsOk(v, q) && n <= 10
    && forall i :: 0 <= i < 16 ==> (v.p[i].Some? <==> i < n)
  }

  lemma CountIs(p: Slots, n: nat)
    requires n <= 10 && forall i :: 0 <= i < 10 ==> (p[i].Some? <==> i < n)
    ensures NormalCount(p) == n
  {
  }

  lemma PhaseIdsAreComplete(n: Names)
    requires NamesOk(n)
    ensures PhaseIdsOk(n, PhaseIds(n))
  {
  }

  lemma ManifestPasses(q: Query, w: World)
    requires NamesOk(q.names) && WorldOk(w, q) && w.deadline <= MAX_EXACT
    ensures ManifestOk(ManifestOf(q, w), q)
  {
    PhaseIdsAreComplete(q.names);
    hide PhaseIdsOk, PhaseIds, NamesOk;
  }

  lemma ManifestWritten(q: Query, w: World)
    ensures Normal(Apply(EMPTY_VIEW, Write(None, ManifestRecord(ManifestOf(q, w)))), q, 0)
  {
    hide Loads, ObsOk, RouteOk, ManifestOf;
  }

  /** What slot n's own check demands once its record is there. */
  predicate StepOk(p: Slots, q: Query, n: nat)
    requires n < 10
  {
    match n
    case 0 => RouteSlotOk(p, q, 0)
    case 1 => RouteSlotOk(p, q, 1)
    case 2 => FanInOk(p, q)
    case 3 => RouteSlotOk(p, q, 2)
    case 4 => AggregateFinalOk(p, q)
    case 5 => RouteSlotOk(p, q, 3)
    case 6 => PendingOk(p, q)
    case 7 => ReviewOk(p)
    case 8 => ExecuteFinalOk(p, q)
    case _ => ReadyOk(p, q)
  }

  lemma RoutesGrow(p: Slots, q: Query, n: nat, r: Record)
    requires RoutesOk(p, q) && n < 10 && StepOk(p[n := Some(r)], q, n)
    requires forall i :: 0 <= i < 16 ==> (p[i].Some? <==> i < n)
    ensures RoutesOk(p[n := Some(r)], q)
  {
    var p' := p[n := Some(r)];
    forall k | 0 <= k < 4
      ensures RouteSlotOk(p', q, k)
    {
      assert RouteSlotOk(p, q, k);
    }
  }

  lemma ChainGrows(p: Slots, q: Query, n: nat, r: Record)
    requires ChainOk(p, q) && n < 10 && StepOk(p[n := Some(r)], q, n)
    requires forall i :: 0 <= i < 16 ==> (p[i].Some? <==> i < n)
    ensures ChainOk(p[n := Some(r)], q)
  {
    hide ObsOk;
    var p' := p[n := Some(r)];
    assert n >= 3 ==> IntentAt(p', 0) == IntentAt(p, 0) && IntentAt(p', 1) == IntentAt(p, 1);
    assert FanInOk(p', q);
    assert AggregateFinalOk(p', q);
    assert PendingOk(p', q);
    assert ReviewOk(p');
    assert ExecuteFinalOk(p', q);
    assert ReadyOk(p', q);
  }

  lemma LoadedGrows(m: Manifest, p: Slots, names: Names, n: nat, r: Record)
    requires LoadedOk(m, p, names) && n < 10 && Loads(names, n, r)
    requires forall i :: 0 <= i < 16 ==> (p[i].Some? <==> i < n)
    ensures LoadedOk(m, p[n := Some(r)], names)
  {
  }

  lemma NormalGrows(v: View, q: Query, n: nat, r: Record)
    requires Normal(v, q, n) && n < 10
    requires Loads(q.names, n, r) && StepOk(v.p[n := Some(r)], q, n)
    ensures Normal(Apply(v, Write(Some(n), r)), q, n + 1)
  {
    LoadedGrows(v.manifest.value.manifest, v.p, q.names, n, r);
    RoutesGrow(v.p, q, n, r);
    ChainGrows(v.p, q, n, r);
    assert RecordsOk(Apply(v, Write(Some(n), r)), q);
  }

  lemma {:induction false} UnwrittenSlot(log: seq<Write>, s: nat)
    requires ValidLog(log) && s < 16 && ViewOf(log).p[s].None?
    ensures forall i :: 0 <= i < |log| ==> log[i].slot != Some(s)
  {
    if log != [] {
      UnwrittenSlot(log[..|log| - 1], s);
    }
  }

  /** A run's log: the manifest first, then phase records, no slot twice. */
  predicate Owned(log: seq<Write>) {
    && ValidLog(log)
    && (log != [] ==> log[0].slot.None?)
    && (forall i :: 1 <= i < |log| ==> log[i].slot.Some?)
    && (forall i, j :: 0 <= i < j < |log| ==> log[i].slot != log[j].slot)
  }

  /** The only way in which the final observation can disagree with the inspection: a
      rejected review whose segment did not end interrupted with code zero. */
  predicate FinalClean(w: World) {
    || w.decision == 1
    || (w.resumeWait.segment.Ended? && w.resumeWait.segment.status == INTERRUPTED && w.resumeWait.segment.code == 0)
  }

  /** The only way in which a stop can leave an approval pending: the execute segment was
      still running when the Host cancelled it, no rejection was under way, and it then
      ended interrupted, waiting for a review. */
  predicate LateApproval(p: Slots, w: World) {
    && w.drainTask.Ended? && w.drainTask.status == INTERRUPTED && w.drainTask.pending
    && ((p[5].Some? && p[6].None? && w.executeWait.segment.Running?)
        || (p[7].Some? && p[8].None? && w.resumeWait.segment.Running? && w.decision != 0))
  }

  /** The verdict on one surviving view. */
  ghost predicate Verdict(v: View, q: Query, w: World) {
    && Core(v, q) && v.manifest.value.manifest == ManifestOf(q, w) && w.deadline <= MAX_EXACT && Told(v.p, q, w)
    && (FinalStatusOk(v.p) <==> (v.p[8].None? || FinalClean(w)))
    && (NoApprovalLeft(v, q.names) <==> (v.p[10].None? || !LateApproval(v.p, w)))
  }

  ghost function VerdictOf(q: Query, w: World): View -> bool {
    (v: View) => Verdict(v, q, w)
  }

  function Prefix(log: seq<Write>, k: nat): (r: seq<Write>)
    requires ValidLog(log) && k <= |log|
    ensures ValidLog(r)
  {
    log[..k]
  }

  /** Every nonempty prefix of the log, that is every view a crash can leave. */
  ghost predicate Survives(log: seq<Write>, verdict: View -> bool)
    requires ValidLog(log)
  {
    forall k {:trigger Prefix(log, k)} :: 1 <= k <= |log| ==> verdict(ViewOf(Prefix(log, k)))
  }

  lemma LogGrows(log: seq<Write>, e: Write, verdict: View -> bool)
    requires Owned(log) && log != [] && Survives(log, verdict)
    requires e.slot.Some? && ValidWrite(e) && ViewOf(log).p[e.slot.value].None?
    requires verdict(Apply(ViewOf(log), e))
    ensures Owned(log + [e]) && Survives(log + [e], verdict)
    ensures ViewOf(log + [e]) == Apply(ViewOf(log), e)
  {
    ViewOfAppend(log, e);
    UnwrittenSlot(log, e.slot.value);
    forall k | 1 <= k <= |log| + 1
      ensures verdict(ViewOf(Prefix(log + [e], k)))
    {
      if k <= |log| {
        assert Prefix(log + [e], k) == Prefix(log, k);
      } else {
        assert Prefix(log + [e], k) == log + [e];
      }
    }
  }

  /** After n acknowledged phase gates. */
  ghost predicate Good(h: Host, q: Query, w: World, n: nat) {
    && h.trace.acknowledged == Below(n + 1) && !h.trace.gateFailed
    && |h.workers| == 2 && ValidLog(h.log) && Sound(h.log, q, w, n)
  }

  /** A normal gate failed: it is exactly the next gate, and its record may or may not exist. */
  ghost predicate GateStopped(h: Host, q: Query, w: World) {
    var g := h.trace.failedGate;
    && h.trace.gateFailed && 1 <= g <= 10 && h.trace.acknowledged == Below(g)
    && (h.phase == GatePhase(g) || (g == 9 && h.phase == Approval)) && ValidLog(h.log)
    && (Sound(h.log, q, w, g - 1) || Sound(h.log, q, w, g))
  }

  /** Record r may become phase record n. */
  ghost predicate Fits(p: Slots, q: Query, w: World, n: nat, r: Record)
    requires n < 10
  {
    && Loads(q.names, n, r) && RecordTells(q, w, n, r) && StepOk(p[n := Some(r)], q, n)
    && (FinalStatusOk(p[n := Some(r)]) <==> (p[n := Some(r)][8].None? || FinalClean(w)))
  }

  lemma NormalVerdict(v: View, q: Query, w: World, n: nat)
    requires Normal(v, q, n) && v.manifest.value.manifest == ManifestOf(q, w) && w.deadline <= MAX_EXACT
    requires (FinalStatusOk(v.p) <==> (v.p[8].None? || FinalClean(w))) && Told(v.p, q, w)
    ensures VerdictOf(q, w)(v)
  {
    hide LoadedOk, RoutesOk, ChainOk, FinalStatusOk, ManifestOf, FinalClean, LateApproval, StopClear, StopOk,
         FailureOk;
  }

  /** The normal records reached so far, in a log all of whose prefixes survive. */
  ghost predicate Sound(log: seq<Write>, q: Query, w: World, n: nat) {
    && Owned(log) && log != [] && Normal(ViewOf(log), q, n)
    && ViewOf(log).manifest == Some(ManifestRecord(ManifestOf(q, w))) && w.deadline <= MAX_EXACT
    && Survives(log, VerdictOf(q, w))
  }

  lemma WholeLog(log: seq<Write>, q: Query, w: World)
    requires Owned(log) && log != [] && Survives(log, VerdictOf(q, w))
    ensures Verdict(ViewOf(log), q, w)
  {
    assert Prefix(log, |log|) == log;
    assert VerdictOf(q, w)(ViewOf(Prefix(log, |log|)));
  }

  lemma WholeTold(v: View, q: Query, w: World)
    requires Verdict(v, q, w)
    ensures Told(v.p, q, w)
  {
    hide Told, LoadedOk, RoutesOk, ChainOk, FinalStatusOk, TailOk;
  }

  lemma Lands(log: seq<Write>, q: Query, w: World, n: nat, r: Record)
    requires Sound(log, q, w, n) && n < 10 && Fits(ViewOf(log).p, q, w, n, r)
    ensures ValidLog(log + [Write(Some(n), r)]) && Sound(log + [Write(Some(n), r)], q, w, n + 1)
    ensures ViewOf(log + [Write(Some(n), r)]) == Apply(ViewOf(log), Write(Some(n), r))
  {
    hide RecordsOk, StepOk, Loads, Survives, FinalStatusOk, RecordTells, Verdict;
    var e := Write(Some(n), r);
    WholeLog(log, q, w);
    WholeTold(ViewOf(log), q, w);
    NormalGrows(ViewOf(log), q, n, r);
    NormalVerdict(Apply(ViewOf(log), e), q, w, n + 1);
    LogGrows(log, e, VerdictOf(q, w));
  }

  /** What a create returns: the Router refuses what it could not read back. */
  function CreateCode(valid: bool, answer: Answer): Rc {
    if !valid then EPROTO else if answer.Ack? then OK else answer.code
  }

  /** Write phase record g - 1 through gate g. */
  method Pass(h: Host, q: Query, ghost w: World, g: nat, r: Record, valid: bool, answer: Answer)
    returns (h': Host, rc: Rc)
    requires NoneTwice(q.names.gates) && 1 <= g <= 10 && Good(h, q, w, g - 1)
    requires h.phase == GatePhase(g) || (g == 9 && h.phase == Approval)
    requires valid ==> Fits(ViewOf(h.log).p, q, w, g - 1, r)
    ensures h'.phase == h.phase && h'.workers == h.workers && h'.task == h.task && h'.role == h.role
    ensures rc == OK ==>
      && Good(h', q, w, g) && h'.log == h.log + [Write(Some(g - 1), r)]
      && ViewOf(h'.log) == Apply(ViewOf(h.log), Write(Some(g - 1), r))
    ensures rc != OK ==> GateStopped(h', q, w) && h'.trace == Trace(Below(g), g, true)
    ensures rc == OK <==> valid && answer == Ack
    ensures rc == CreateCode(valid, answer)
  {
    hide Sound, Fits, NoneTwice, Good, GateStopped, Below;
    GoodParts(h, q, w, g - 1);
    var e := Write(Some(g - 1), r);
    var (log, code) := Commit(h.log, e, valid, answer);
    rc := code;
    var trace := Gate(q.names, h.trace, q.names.gates[g], rc, g);
    h' := h.(trace := trace, log := log);
    if valid { Lands(h.log, q, w, g - 1, r); }
    if rc == OK {
      assert Below(g + 1) == Below(g) + {g} by { BelowGrows(g); }
      NowGood(h', q, w, g);
    } else {
      NowStopped(h', q, w, g);
    }
  }

  lemma BelowGrows(g: nat)
    ensures Below(g + 1) == Below(g) + {g}
  {
  }

  lemma GoodParts(h: Host, q: Query, w: World, n: nat)
    requires Good(h, q, w, n)
    ensures h.trace.acknowledged == Below(n + 1) && !h.trace.gateFailed && |h.workers| == 2 && ValidLog(h.log)
    ensures Sound(h.log, q, w, n)
  {
    hide Sound;
  }

  lemma NowGood(h: Host, q: Query, w: World, n: nat)
    requires h.trace.acknowledged == Below(n + 1) && !h.trace.gateFailed && |h.workers| == 2 && ValidLog(h.log)
    requires Sound(h.log, q, w, n)
    ensures Good(h, q, w, n)
  {
    hide Sound;
  }

  lemma NowStopped(h: Host, q: Query, w: World, g: nat)
    requires h.trace == Trace(Below(g), g, true) && 1 <= g <= 10 && ValidLog(h.log)
    requires h.phase == GatePhase(g) || (g == 9 && h.phase == Approval)
    requires Sound(h.log, q, w, g - 1) || Sound(h.log, q, w, g)
    ensures GateStopped(h, q, w)
  {
    hide Sound;
  }
}
