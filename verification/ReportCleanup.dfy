/** The drain, and the cleanup audit of every task that the host still retains. */
module ReportCleanup {
  import opened Collections
  import opened ReportKeys
  import opened ReportRecords
  import opened ReportTasks
  import opened ReportInspector
  import opened ReportWriter
  import opened ReportStages
  import opened ReportAudit

  // ----- The drain -----

  function DrainTask(t: Option<Task>, end: Segment): Option<Task>
    requires end.Ended?
  {
    if t.None? then None else Some(Drain(t.value, end))
  }

  function Drained(h: Host, w: World): (r: Host)
    requires |h.workers| == 2 && |w.drainWorkers| == 2
    requires w.drainWorkers[0].Ended? && w.drainWorkers[1].Ended? && w.drainTask.Ended?
    ensures |r.workers| == 2
  {
    h.(workers := [DrainTask(h.workers[0], w.drainWorkers[0]), DrainTask(h.workers[1], w.drainWorkers[1])],
       task := DrainTask(h.task, w.drainTask))
  }

  /** The slot of the observation that stands for a retained task. */
  function AuditSlot(t: Task, r: nat): nat {
    if !t.taken then 11 + r else if r == 2 then 4 else if t.resumes != 0 then 8 else 6
  }

  ghost predicate SameRun(t: Task, o: Observation)
    requires t.segment.Ended?
  {
    && o.taskId == t.taskId && o.executionId == t.executionId && o.route == t.route
    && o.status == t.segment.status && o.code == t.segment.code && o.unresponsive == t.unresponsive
  }

  /** A drained task in role r: ended, and either observed before its result moved or
      ready to be observed now. */
  ghost predicate Settled(t: Task, p: Slots, r: nat)
    requires r < 4
  {
    && Matches(t, p, RoleAt(r)) && Terminal(t.segment) && t.resumes <= 1
    && (if t.taken
        then r >= 2 && !ApprovalPending(t) && ObsAt(p, AuditSlot(t, r)).Some?
             && SameRun(t, ObsAt(p, AuditSlot(t, r)).value)
        else t.resumes != 0 ==> ReviewAt(p).Some? && t.executionId == ReviewAt(p).value.executionId)
  }

  /** The role index of the single retained task. */
  function TaskRole(h: Host): nat {
    if h.role == Aggregate then 2 else 3
  }

  /** Everything that a drained host still holds is settled, and it fits the phase. */
  ghost predicate AtRest(h: Host, p: Slots, n: nat)
    requires |h.workers| == 2
  {
    && (forall i :: 0 <= i < 2 && h.workers[i].Some? ==> !h.workers[i].value.taken && Settled(h.workers[i].value, p, i))
    && (h.task.Some? ==> (h.role == Aggregate || h.role == Execute) && Settled(h.task.value, p, TaskRole(h)))
    && RangeOk(PhaseIndex(h.phase), n)
    && (h.phase == Workers <==> PhaseIndex(h.phase) == 0)
    && (h.workers[0].Some? || h.workers[1].Some? ==> h.phase == Workers && h.task.None?)
    && (h.task.Some? ==> h.phase != Workers && (h.phase == Aggregation <==> h.role == Aggregate))
  }

  /** The roles whose tasks need a cleanup observation, in audit order. */
  function Todo(h: Host, i: nat): seq<nat>
    requires |h.workers| == 2
  {
    (if i >= 1 && h.workers[0].Some? then [0] else [])
    + (if i >= 2 && h.workers[1].Some? then [1] else [])
    + (if i >= 3 && h.task.Some? && !h.task.value.taken then [TaskRole(h)] else [])
  }

  lemma FreshSettles(t: Task, end: Segment, p: Slots, r: nat)
    requires r < 4 && Fresh(t, p, RoleAt(r)) && Terminal(end)
    ensures Settled(Drain(t, end), p, r) && !Drain(t, end).taken
  {
  }

  lemma ResumedSettles(t: Task, end: Segment, p: Slots)
    requires Resumed(t, p) && Terminal(end)
    ensures Settled(Drain(t, end), p, 3)
  {
  }

  lemma TakenSettles(t: Task, end: Segment, p: Slots, n: Names, r: nat, s: nat)
    requires (r == 2 && s == 4 && t.resumes == 0) || (r == 3 && s == 6 && t.resumes == 0)
      || (r == 3 && s == 8 && t.resumes == 1)
    requires Terminal(end) && Taken(t, p, n, RoleAt(r), s)
    ensures Settled(Drain(t, end), p, r)
  {
  }

  lemma TableRange(h: Host, p: Slots, names: Names, n: nat)
    requires |h.workers| == 2 && Table(h, p, names, n)
    ensures RangeOk(PhaseIndex(h.phase), n)
  {
    hide Fresh, Resumed, Taken;
  }

  lemma DrainSettles(h: Host, p: Slots, q: Query, w: World, n: nat)
    requires WorldOk(w, q) && |h.workers| == 2 && Table(h, p, q.names, n)
    ensures AtRest(Drained(h, w), p, n)
  {
    hide Settled, Fresh, Resumed, Taken, Drain, RangeOk;
    TableRange(h, p, q.names, n);
    if h.phase == Workers {
      if h.workers[0].Some? { FreshSettles(h.workers[0].value, w.drainWorkers[0], p, 0); }
      if h.workers[1].Some? { FreshSettles(h.workers[1].value, w.drainWorkers[1], p, 1); }
    } else if h.task.Some? {
      var t, r := h.task.value, TaskRole(h);
      if (h.phase == Aggregation && n == 4) || h.phase == Execution {
        FreshSettles(t, w.drainTask, p, r);
      } else if n == 8 || (n == 9 && h.phase == Approval) {
        ResumedSettles(t, w.drainTask, p);
      } else {
        TakenSettles(t, w.drainTask, p, q.names, r, if r == 2 then 4 else if n == 7 then 6 else 8);
      }
    }
  }

  /** What the writer retains is what the inspection expects to have been cleaned up. */
  lemma TodoIsExpected(h: Host, p: Slots, q: Query, w: World, n: nat)
    requires WorldOk(w, q) && |h.workers| == 2 && Table(h, p, q.names, n)
    ensures Todo(Drained(h, w), 3) == Expected(PhaseIndex(h.phase), n)
  {
  }

  lemma WorkerNotPending(t: Task, end: Segment, p: Slots, q: Query, r: nat)
    requires r < 3 && RoutesOk(p, q) && Matches(t, p, RoleAt(r)) && (t.segment.Ended? || end.Ended?)
    ensures !ApprovalPending(Drain(t, end))
  {
    assert RouteSlotOk(p, q, r);
  }

  lemma ExecuteTurns(t: Task, p: Slots, q: Query)
    requires RoutesOk(p, q) && Matches(t, p, Execute)
    ensures t.route.maxTurns == 2
  {
    assert RouteSlotOk(p, q, 3);
  }

  /** After the drain an approval is pending exactly in the late case. */
  lemma DrainApproval(h: Host, p: Slots, q: Query, w: World, n: nat)
    requires WorldOk(w, q) && RoutesOk(p, q) && (forall i :: 0 <= i < 10 ==> (p[i].Some? <==> i < n))
    requires |h.workers| == 2 && Table(h, p, q.names, n) && SegmentSeen(h, w, n)
    ensures forall i :: 0 <= i < 2 && h.workers[i].Some? ==> !ApprovalPending(Drained(h, w).workers[i].value)
    ensures LateApproval(p, w) <==> h.task.Some? && ApprovalPending(Drained(h, w).task.value)
  {
    hide RoutesOk, Matches, Drain, ApprovalPending, ObservationOf;
    if h.workers[0].Some? { WorkerNotPending(h.workers[0].value, w.drainWorkers[0], p, q, 0); }
    if h.workers[1].Some? { WorkerNotPending(h.workers[1].value, w.drainWorkers[1], p, q, 1); }
    if h.task.Some? {
      if h.phase == Aggregation {
        WorkerNotPending(h.task.value, w.drainTask, p, q, 2);
      } else {
        ExecuteTurns(h.task.value, p, q);
        DrainLeavesApproval(h.task.value, w.drainTask);
      }
    }
  }

  // ----- Auditing one task -----

  function EntryOf(t: Task, r: nat, n: Names): StopEntry
    requires t.segment.Ended? && r < 4
  {
    StopEntry(RoleAt(r), n.keys[AuditSlot(t, r)], if t.taken then BeforeTransfer else AfterDrain, t.taskId,
              t.executionId, t.route.threadId, t.segment.status, t.segment.code, t.unresponsive, t.taken,
              ApprovalPending(t))
  }

  /** The observation that the entry of this task refers to. */
  ghost predicate Recorded(t: Task, r: nat, p: Slots)
    requires r < 4
  {
    && Terminal(t.segment) && (t.taken ==> r >= 2 && !ApprovalPending(t))
    && ObsAt(p, AuditSlot(t, r)).Some?
    && var o := ObsAt(p, AuditSlot(t, r)).value;
       SameRun(t, o) && (!t.taken ==> o.approvalPending == ApprovalPending(t))
  }

  lemma EntryHolds(t: Task, r: nat, p: Slots, n: Names, phase: nat)
    requires r < 4 && Recorded(t, r, p) && AllLoad(n, p) && KeysApart(n)
    requires if phase == 0 then r < 2 else if phase == 1 then r == 2 else r == 3
    ensures EntryOk(EntryOf(t, r, n), phase, p, n)
    ensures EntryClear(EntryOf(t, r, n), p, n) <==> !ApprovalPending(t)
  {
    var s := AuditSlot(t, r);
    assert Loads(n, s, p[s].value);
    assert n.keys[6] != n.keys[8];
  }

  function SetOf(s: seq<nat>): set<nat> {
    set x | x in s
  }

  function RowSlots(done: seq<nat>): seq<nat> {
    seq(|done|, i requires 0 <= i < |done| => 11 + done[i])
  }

  /** So far these rows were cleaned up, each acknowledged. */
  ghost predicate Cleaning(a: Audit, q: Query, w: World, base: Slots, n: nat, done: seq<nat>) {
    && ValidLog(a.log) && Audited(a.log, q, w, base, n, SetOf(done))
    && a.cleanup == CleanupTrace(SetOf(done), 0) && a.attempts == RowSlots(done)
  }

  /** The cleanup ended early: the rows in `done` were acknowledged, and the next one of
      `todo` was attempted or not. */
  ghost predicate Broken(a: Audit, q: Query, w: World, base: Slots, n: nat, done: seq<nat>, todo: seq<nat>) {
    && a.cleanup.acknowledged == SetOf(done) && done <= todo
    && if a.cleanup.failedGate == 0
       then Audited(a.log, q, w, base, n, SetOf(done)) && a.attempts == RowSlots(done)
       else
         && |done| < |todo| && a.cleanup.failedGate == todo[|done|] + 1 <= 4
         && a.attempts == RowSlots(done) + [11 + todo[|done|]]
         && (Audited(a.log, q, w, base, n, SetOf(done))
             || Audited(a.log, q, w, base, n, SetOf(done) + {todo[|done|]}))
  }

  lemma SettledFits(t: Task, base: Slots, q: Query, r: nat)
    requires r < 4 && Settled(t, base, r) && !t.taken && RoutesOk(base, q)
    requires ObservationValid(ObservationOf(t, q.names.keys[11 + r]), q.names.keys[11 + r])
    ensures RowFits(ObservationOf(t, q.names.keys[11 + r]), base, q, r)
  {
    ObservationStep(base, q, t, RoleAt(r), q.names.keys[11 + r]);
  }

  lemma DoneGrows(done: seq<nat>, r: nat)
    ensures SetOf(done + [r]) == SetOf(done) + {r} && RowSlots(done + [r]) == RowSlots(done) + [11 + r]
  {
  }

  lemma TakenIsRecorded(t: Task, r: nat, base: Slots, p: Slots, n: nat, rows: set<nat>)
    requires r < 4 && Settled(t, base, r) && t.taken && Shape(p, base, n, rows)
    ensures Recorded(t, r, p) && AuditSlot(t, r) < n
  {
    assert p[AuditSlot(t, r)] == base[AuditSlot(t, r)];
  }

  /** Nothing that was stored changes. */
  ghost predicate Extends(p': Slots, p: Slots) {
    forall i :: 0 <= i < 16 && p[i].Some? ==> p'[i] == p[i]
  }

  lemma RowWritten(log: seq<Write>, q: Query, w: World, t: Task, r: nat, base: Slots, n: nat, done: seq<nat>)
    requires r < 4 && RoutesOk(base, q) && Settled(t, base, r) && !t.taken && r !in done
    requires ValidLog(log) && Audited(log, q, w, base, n, SetOf(done))
    requires ObservationValid(ObservationOf(t, q.names.keys[11 + r]), q.names.keys[11 + r])
    ensures var log' := log + [Write(Some(11 + r), ObservationRecord(ObservationOf(t, q.names.keys[11 + r])))];
      && Audited(log', q, w, base, n, SetOf(done) + {r}) && ValidLog(log') && ValidLog(log)
      && Recorded(t, r, ViewOf(log').p) && Extends(ViewOf(log').p, ViewOf(log).p) && RowAdds(log, log', t, q.names, r)
  {
    hide Audited, ObservationValid, RoutesOk, RowFits;
    SettledFits(t, base, q, r);
    RowAbsent(log, q, w, base, n, SetOf(done), r);
    RowLands(log, q, w, base, n, SetOf(done), r, ObservationOf(t, q.names.keys[11 + r]));
  }

  lemma RowAbsent(log: seq<Write>, q: Query, w: World, base: Slots, n: nat, rows: set<nat>, r: nat)
    requires ValidLog(log) && r < 4 && r !in rows && Audited(log, q, w, base, n, rows)
    ensures ViewOf(log).p[11 + r].None?
  {
    hide RecordsOk, Survives, FinalAgrees;
  }

  /** The Router would record this task: its result moved before, or its observation is valid. */
  ghost predicate Observable(t: Task, r: nat, n: Names)
    requires r < 4 && t.segment.Ended?
  {
    t.taken || ObservationValid(ObservationOf(t, n.keys[11 + r]), n.keys[11 + r])
  }

  /** A cleanup row was attempted last and is not stored. */
  ghost predicate RowMissing(log: seq<Write>, attempts: seq<nat>) {
    && ValidLog(log) && attempts != []
    && var s := attempts[|attempts| - 1];
       11 <= s < 15 && ViewOf(log).p[s].None?
  }

  lemma RowIsMissing(log: seq<Write>, q: Query, w: World, r: nat, base: Slots, n: nat, done: seq<nat>,
                     attempts: seq<nat>)
    requires r < 4 && r !in done && ValidLog(log) && Audited(log, q, w, base, n, SetOf(done))
    ensures RowMissing(log, attempts + [11 + r])
  {
    hide Audited;
    RowAbsent(log, q, w, base, n, SetOf(done), r);
  }

  // ----- What the rows say, and what the audit returns -----

  /** The retained task of a role. */
  function RoleTask(h: Host, r: nat): Option<Task>
    requires |h.workers| == 2 && r < 4
  {
    if r < 2 then h.workers[r] else if h.task.Some? && TaskRole(h) == r then h.task else None
  }

  /** A cleanup row is the observation of its role's task, whose result was not taken. */
  ghost predicate RowOf(h: Host, n: Names, p: Slots, r: nat)
    requires |h.workers| == 2 && r < 4
  {
    p[11 + r].Some? ==>
      && RoleTask(h, r).Some? && !RoleTask(h, r).value.taken && RoleTask(h, r).value.segment.Ended?
      && p[11 + r].value == ObservationRecord(ObservationOf(RoleTask(h, r).value, n.keys[11 + r]))
  }

  ghost predicate RowsTold(h: Host, n: Names, log: seq<Write>)
    requires |h.workers| == 2
  {
    ValidLog(log) && forall r :: 0 <= r < 4 ==> RowOf(h, n, ViewOf(log).p, r)
  }

  lemma NoRowsTold(h: Host, q: Query, w: World, base: Slots, n: nat)
    requires Stopping(h, q, w, base, n)
    ensures RowsTold(h, q.names, h.log)
  {
    hide RecordsOk, Survives, FinalAgrees, AtRest, RoutesOk;
  }

  /** One more row of the same host. */
  lemma RowTold(h: Host, n: Names, log: seq<Write>, log': seq<Write>, r: nat)
    requires |h.workers| == 2 && r < 4 && RoleTask(h, r).Some? && RowsTold(h, n, log)
    requires RowAdds(log, log', RoleTask(h, r).value, n, r)
    ensures RowsTold(h, n, log')
  {
    forall k | 0 <= k < 4
      ensures RowOf(h, n, ViewOf(log').p, k)
    {
      assert RowOf(h, n, ViewOf(log).p, k);
    }
  }

  /** Nothing was stored, or the observation of this untaken task. */
  ghost predicate RowAdds(log: seq<Write>, log': seq<Write>, t: Task, n: Names, r: nat)
    requires r < 4
  {
    && ValidLog(log) && ValidLog(log') && t.segment.Ended?
    && (ViewOf(log').p == ViewOf(log).p
        || (!t.taken
            && ViewOf(log').p == ViewOf(log).p[11 + r := Some(ObservationRecord(ObservationOf(t, n.keys[11 + r])))]))
  }

  function FirstError(a: Rc, b: Rc): Rc { if a != OK then a else b }

  /** The answers of auditing one task, in order. */
  function TaskCode(n: Names, t: Task, r: nat, x: RoleAudit): Rc
    requires r < 4 && t.segment.Ended?
  {
    FirstError(x.inspect,
               FirstError(if t.taken then OK
                          else CreateCode(ObservationValid(ObservationOf(t, n.keys[11 + r]), n.keys[11 + r]), x.answer),
                          x.project))
  }

  function RoleCode(h: Host, n: Names, r: nat, audits: seq<RoleAudit>): Rc
    requires |h.workers| == 2 && r < 4 && |audits| == 4
  {
    if RoleTask(h, r).Some? && RoleTask(h, r).value.segment.Ended? then TaskCode(n, RoleTask(h, r).value, r, audits[r])
    else OK
  }

  /** The workers, and then the one other task. */
  function RolesCode(h: Host, n: Names, audits: seq<RoleAudit>): Rc
    requires |h.workers| == 2 && |audits| == 4
  {
    FirstError(RoleCode(h, n, 0, audits), FirstError(RoleCode(h, n, 1, audits),
               FirstError(RoleCode(h, n, 2, audits), RoleCode(h, n, 3, audits))))
  }

  /** The cleanup observation of an untaken result. */
  method WriteRow(q: Query, ghost w: World, a: Audit, t: Task, r: nat, answer: Answer,
                  ghost base: Slots, ghost n: nat, ghost done: seq<nat>)
    returns (a': Audit, rc: Rc)
    requires r < 4 && RoutesOk(base, q) && Settled(t, base, r) && !t.taken && r !in done
    requires Cleaning(a, q, w, base, n, done)
    ensures a'.entries == a.entries
    ensures rc == OK ==>
      && Cleaning(a', q, w, base, n, done + [r]) && Recorded(t, r, ViewOf(a'.log).p)
      && Extends(ViewOf(a'.log).p, ViewOf(a.log).p)
    ensures rc != OK ==> Broken(a', q, w, base, n, done, done + [r])
    ensures answer == Ack && Observable(t, r, q.names) ==> rc == OK
    ensures answer == Ack && rc != OK ==> RowMissing(a'.log, a'.attempts)
    ensures RowAdds(a.log, a'.log, t, q.names, r)
    ensures rc == CreateCode(ObservationValid(ObservationOf(t, q.names.keys[11 + r]), q.names.keys[11 + r]), answer)
  {
    hide Audited, ObservationValid, RoutesOk, SetOf, RowSlots;
    var o := ObservationOf(t, q.names.keys[11 + r]);
    var valid := ObservationValid(o, q.names.keys[11 + r]);
    DoneGrows(done, r);
    if valid { RowWritten(a.log, q, w, t, r, base, n, done); }
    RowIsMissing(a.log, q, w, r, base, n, done, a.attempts);
    hide RowMissing;
    var (log, code) := Commit(a.log, Write(Some(11 + r), ObservationRecord(o)), valid, answer);
    a' := Audit(log, a.cleanup.(failedGate := r + 1), a.entries, a.attempts + [11 + r]);
    rc := code;
    if rc == OK { a' := a'.(cleanup := CleanupTrace(a.cleanup.acknowledged + {r}, 0)); }
  }

  /** Record or link the observation of one retained task and describe it in an entry. */
  method AuditTask(q: Query, ghost w: World, trace: Trace, a: Audit, t: Task, r: nat, x: RoleAudit,
                   ghost base: Slots, ghost n: nat, ghost done: seq<nat>)
    returns (a': Audit, rc: Rc, ghost done': seq<nat>)
    requires NoneTwice(q.names.gates) && r < 4 && trace.acknowledged == Below(n + 1)
    requires RoutesOk(base, q) && Settled(t, base, r) && Cleaning(a, q, w, base, n, done)
    requires !t.taken ==> r !in done
    ensures rc == OK ==>
      && done' == done + (if t.taken then [] else [r]) && Cleaning(a', q, w, base, n, done')
      && a'.entries == a.entries + [EntryOf(t, r, q.names)] && Recorded(t, r, ViewOf(a'.log).p)
      && Extends(ViewOf(a'.log).p, ViewOf(a.log).p)
    ensures rc != OK ==> Broken(a', q, w, base, n, done', done + (if t.taken then [] else [r]))
    ensures x == RoleAudit(OK, Ack, OK) && Observable(t, r, q.names) ==> rc == OK
    ensures x == RoleAudit(OK, Ack, OK) && rc != OK ==> RowMissing(a'.log, a'.attempts)
    ensures RowAdds(a.log, a'.log, t, q.names, r) && rc == TaskCode(q.names, t, r, x)
  {
    hide RecordsOk, Survives, Shape, FinalAgrees, RoutesOk, RowMissing, Observable;
    a', done' := a, done;
    if x.inspect != OK { return a', x.inspect, done'; }
    if t.segment.status < COMPLETED { assert false; }
    if t.taken {
      TakenIsRecorded(t, r, base, ViewOf(a.log).p, n, SetOf(done));
      var gate := Locate(q.names.gates, q.names.gates[AuditSlot(t, r) + 1]);
      if gate == 11 || gate !in trace.acknowledged { assert false; }
    } else {
      a', rc := WriteRow(q, w, a, t, r, x.answer, base, n, done);
      if rc != OK { return; }
      done' := done + [r];
    }
    if x.project != OK { return a', x.project, done'; }
    a' := a'.(entries := a.entries + [EntryOf(t, r, q.names)]);
    rc := OK;
  }

  // ----- The stop audit -----

  /** The acknowledged gates by the writer's own table. */
  method GateIds(n: Names, mask: set<nat>, ghost count: nat) returns (ids: seq<string>)
    requires count <= 11 && mask == Below(count) && TablesAgree(n)
    ensures ids == GateList(n, count)
  {
    ids := [];
    for i := 0 to 11
      invariant ids == GateList(n, if i < count then i else count)
    {
      if i in mask { ids := ids + [n.gateKeys[i]]; }
    }
  }

  ghost predicate AllEnded(h: Host)
    requires |h.workers| == 2
  {
    && (h.workers[0].Some? ==> h.workers[0].value.segment.Ended?)
    && (h.workers[1].Some? ==> h.workers[1].value.segment.Ended?)
    && (h.task.Some? ==> h.task.value.segment.Ended?)
  }

  function Entries(h: Host, n: Names, i: nat): seq<StopEntry>
    requires |h.workers| == 2 && AllEnded(h)
  {
    (if i >= 1 && h.workers[0].Some? then [EntryOf(h.workers[0].value, 0, n)] else [])
    + (if i >= 2 && h.workers[1].Some? then [EntryOf(h.workers[1].value, 1, n)] else [])
    + (if i >= 3 && h.task.Some? then [EntryOf(h.task.value, TaskRole(h), n)] else [])
  }

  ghost predicate AllRecorded(h: Host, p: Slots, i: nat)
    requires |h.workers| == 2
  {
    && (i >= 1 && h.workers[0].Some? ==> Recorded(h.workers[0].value, 0, p))
    && (i >= 2 && h.workers[1].Some? ==> Recorded(h.workers[1].value, 1, p))
    && (i >= 3 && h.task.Some? ==> Recorded(h.task.value, TaskRole(h), p))
  }

  lemma AllRecordedStays(h: Host, p: Slots, p': Slots, i: nat)
    requires |h.workers| == 2 && AllRecorded(h, p, i) && Extends(p', p)
    ensures AllRecorded(h, p', i)
  {
  }

  lemma BrokenEarlier(a: Audit, q: Query, w: World, base: Slots, n: nat, done: seq<nat>, todo: seq<nat>, all: seq<nat>)
    requires Broken(a, q, w, base, n, done, todo) && todo <= all
    ensures Broken(a, q, w, base, n, done, all)
  {
    hide Audited;
  }

  /** The host and the normal records when the stop audit starts. */
  ghost predicate Stopping(h: Host, q: Query, w: World, base: Slots, n: nat) {
    && |h.workers| == 2 && AtRest(h, base, n) && RoutesOk(base, q)
    && h.trace.acknowledged == Below(n + 1) && !h.trace.gateFailed
    && Audited(h.log, q, w, base, n, {})
  }

  lemma EndedAtRest(h: Host, base: Slots, n: nat)
    requires |h.workers| == 2 && AtRest(h, base, n)
    ensures AllEnded(h)
  {
  }

  ghost predicate AllObservable(h: Host, n: Names)
    requires |h.workers| == 2 && AllEnded(h)
  {
    && (h.workers[0].Some? ==> Observable(h.workers[0].value, 0, n))
    && (h.workers[1].Some? ==> Observable(h.workers[1].value, 1, n))
    && (h.task.Some? ==> Observable(h.task.value, TaskRole(h), n))
  }

  lemma AuditStarts(h: Host, q: Query, w: World, base: Slots, n: nat)
    requires Stopping(h, q, w, base, n)
    ensures Cleaning(Audit(h.log, CleanupTrace({}, 0), [], []), q, w, base, n, [])
  {
    hide Rows, Survives, AtRest, RoutesOk;
    assert SetOf([]) == {};
  }

  /** Every audit of a retained task is answered well. */
  ghost predicate RolesAnswered(w: World) {
    |w.audits| == 4 && forall i :: 0 <= i < 4 ==> w.audits[i] == RoleAudit(OK, Ack, OK)
  }

  /** After the first i retained tasks. */
  ghost predicate CleanedTo(a: Audit, q: Query, w: World, h: Host, base: Slots, n: nat, i: nat)
    requires |h.workers| == 2 && AllEnded(h)
  {
    && Cleaning(a, q, w, base, n, Todo(h, i))
    && a.entries == Entries(h, q.names, i) && AllRecorded(h, ViewOf(a.log).p, i)
  }

  /** One worker, if it is retained. */
  method CleanWorker(q: Query, w: World, h: Host, a0: Audit, i: nat, ghost base: Slots, ghost n: nat,
                     ghost done0: seq<nat>)
    returns (a: Audit, rc: Rc, ghost done: seq<nat>)
    requires NoneTwice(q.names.gates) && |w.audits| == 4 && Stopping(h, q, w, base, n) && AllEnded(h) && i < 2
    requires done0 == Todo(h, i) && CleanedTo(a0, q, w, h, base, n, i) && RowsTold(h, q.names, a0.log)
    ensures rc == OK ==> done == Todo(h, i + 1) && CleanedTo(a, q, w, h, base, n, i + 1)
    ensures rc != OK ==> Broken(a, q, w, base, n, done, Todo(h, 2))
    ensures RolesAnswered(w) && AllObservable(h, q.names) ==> rc == OK
    ensures RolesAnswered(w) && rc != OK ==> RowMissing(a.log, a.attempts)
    ensures RowsTold(h, q.names, a.log) && rc == RoleCode(h, q.names, i, w.audits)
  {
    hide Audited, RoutesOk, Recorded, Settled, Broken, EntryOf, Observable, RowMissing, Extends, RowSlots, NoneTwice,
         RowAdds, RowsTold, TaskCode;
    a, rc, done := a0, OK, done0;
    if h.workers[i].Some? {
      assert Todo(h, i + 1) == done + (if h.workers[i].value.taken then [] else [i]);
      a, rc, done := AuditTask(q, w, h.trace, a, h.workers[i].value, i, w.audits[i], base, n, done);
      RowTold(h, q.names, a0.log, a.log, i);
      if rc != OK {
        BrokenEarlier(a, q, w, base, n, done, Todo(h, i + 1), Todo(h, 2));
        return;
      }
      AllRecordedStays(h, ViewOf(a0.log).p, ViewOf(a.log).p, i);
    }
  }

  method CleanWorkers(q: Query, w: World, h: Host, ghost base: Slots, ghost n: nat)
    returns (a: Audit, rc: Rc, ghost done: seq<nat>)
    requires NoneTwice(q.names.gates) && |w.audits| == 4 && Stopping(h, q, w, base, n) && AllEnded(h)
    ensures rc == OK ==> done == Todo(h, 2) && CleanedTo(a, q, w, h, base, n, 2)
    ensures rc != OK ==> Broken(a, q, w, base, n, done, Todo(h, 2))
    ensures RolesAnswered(w) && AllObservable(h, q.names) ==> rc == OK
    ensures RolesAnswered(w) && rc != OK ==> RowMissing(a.log, a.attempts)
    ensures RowsTold(h, q.names, a.log)
    ensures rc == FirstError(RoleCode(h, q.names, 0, w.audits), RoleCode(h, q.names, 1, w.audits))
  {
    hide Audited, RoutesOk, Recorded, Settled, Broken, EntryOf, Observable, RowMissing, Extends, RowSlots, NoneTwice,
         RowAdds, RowsTold, RoleCode;
    NoRowsTold(h, q, w, base, n);
    AuditStarts(h, q, w, base, n);
    a, rc, done := Audit(h.log, CleanupTrace({}, 0), [], []), OK, [];
    for i := 0 to 2
      invariant rc == OK && done == Todo(h, i) && CleanedTo(a, q, w, h, base, n, i) && RowsTold(h, q.names, a.log)
      invariant forall k :: 0 <= k < i ==> RoleCode(h, q.names, k, w.audits) == OK
    {
      a, rc, done := CleanWorker(q, w, h, a, i, base, n, done);
      if rc != OK { return; }
    }
  }

  /** Audit the retained workers and then the single retained task. */
  method CleanRetained(q: Query, w: World, h: Host, ghost base: Slots, ghost n: nat)
    returns (a: Audit, rc: Rc, ghost done: seq<nat>)
    requires NoneTwice(q.names.gates) && |w.audits| == 4 && Stopping(h, q, w, base, n) && AllEnded(h)
    ensures rc == OK ==> done == Todo(h, 3) && CleanedTo(a, q, w, h, base, n, 3)
    ensures rc != OK ==> Broken(a, q, w, base, n, done, Todo(h, 3))
    ensures RolesAnswered(w) && AllObservable(h, q.names) ==> rc == OK
    ensures RolesAnswered(w) && rc != OK ==> RowMissing(a.log, a.attempts)
    ensures RowsTold(h, q.names, a.log) && rc == RolesCode(h, q.names, w.audits)
  {
    hide Audited, RoutesOk, Recorded, Settled, Broken, EntryOf, Observable, RowMissing, Extends, RowSlots, NoneTwice,
         RowAdds, RowsTold, TaskCode;
    a, rc, done := CleanWorkers(q, w, h, base, n);
    if rc != OK {
      BrokenEarlier(a, q, w, base, n, done, Todo(h, 2), Todo(h, 3));
      return;
    }
    if h.task.Some? {
      assert done == [] && Todo(h, 3) == done + (if h.task.value.taken then [] else [TaskRole(h)]);
      ghost var before := a;
      a, rc, done := AuditTask(q, w, h.trace, a, h.task.value, TaskRole(h), w.audits[TaskRole(h)], base, n, done);
      RowTold(h, q.names, before.log, a.log, TaskRole(h));
    }
  }
}
