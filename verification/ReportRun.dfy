/** The whole report run, and its agreement with the inspection on every surviving view. */
module ReportRun {
  import opened Collections
  import opened ReportKeys
  import opened ReportRecords
  import opened ReportTasks
  import opened ReportInspector
  import opened ReportWriter
  import opened ReportStages
  import opened ReportAudit
  import opened ReportCleanup

  // ----- The stop record -----

  function StopOf(q: Query, w: World, phase: Phase, operation: Rc, entries: seq<StopEntry>, gates: seq<string>): Stop {
    Stop(Header(1, StopSemantics, q.names.id, q.parent, OriginMonotonic), phase, operation, w.stopNow, entries, gates)
  }

  ghost predicate Pending(h: Host) {
    h.task.Some? && ApprovalPending(h.task.value)
  }

  ghost predicate WorkersClear(h: Host)
    requires |h.workers| == 2
  {
    forall i :: 0 <= i < 2 && h.workers[i].Some? ==> !ApprovalPending(h.workers[i].value)
  }

  lemma EntriesHold(h: Host, base: Slots, p: Slots, q: Query, n: nat)
    requires |h.workers| == 2 && AtRest(h, base, n) && AllRecorded(h, p, 3) && WorkersClear(h)
    requires AllLoad(q.names, p) && KeysApart(q.names)
    requires AllEnded(h)
    ensures var entries := Entries(h, q.names, 3);
      && |entries| <= 2
      && (forall i :: 0 <= i < |entries| ==> EntryOk(entries[i], PhaseIndex(h.phase), p, q.names))
      && (forall i, j :: 0 <= i < j < |entries| ==> entries[i].role != entries[j].role)
      && ((forall i :: 0 <= i < |entries| ==> EntryClear(entries[i], p, q.names)) <==> !Pending(h))
  {
    hide EntryOk, EntryClear, AllLoad, NoneTwice, Recorded, ApprovalPending, Settled;
    if h.workers[0].Some? { EntryHolds(h.workers[0].value, 0, p, q.names, PhaseIndex(h.phase)); }
    if h.workers[1].Some? { EntryHolds(h.workers[1].value, 1, p, q.names, PhaseIndex(h.phase)); }
    if h.task.Some? {
      EntryHolds(h.task.value, TaskRole(h), p, q.names, PhaseIndex(h.phase));
      assert Entries(h, q.names, 3)[0] == EntryOf(h.task.value, TaskRole(h), q.names);
    }
  }

  lemma StopHolds(h: Host, base: Slots, p: Slots, q: Query, w: World, n: nat, rows: set<nat>, operation: Err)
    requires |h.workers| == 2 && AtRest(h, base, n) && AllRecorded(h, p, 3) && WorkersClear(h)
    requires AllLoad(q.names, p) && KeysApart(q.names) && Shape(p, base, n, rows)
    requires AllEnded(h)
    requires w.started <= w.stopNow <= MAX_EXACT
    ensures var s := StopOf(q, w, h.phase, operation, Entries(h, q.names, 3), GateList(q.names, n + 1));
      StopOk(s, p, ManifestOf(q, w), q) && (StopClear(s, p, q.names) <==> !Pending(h))
  {
    hide EntryOk, EntryClear, AllLoad, NoneTwice, AllRecorded, Settled, Entries, GateList;
    EntriesHold(h, base, p, q, n);
    CountIs(p, n);
  }

  /** The stop record that this host would write. */
  ghost function FinalStop(h: Host, q: Query, w: World, n: nat, operation: Err): Stop
    requires |h.workers| == 2 && AllEnded(h) && n <= 10
  {
    StopOf(q, w, h.phase, operation, Entries(h, q.names, 3), GateList(q.names, n + 1))
  }

  /** Every row was acknowledged, and the stop record itself was not: it may exist. */
  ghost predicate StopBroken(a: Audit, q: Query, w: World, base: Slots, n: nat, todo: seq<nat>, s: Stop) {
    && a.cleanup == CleanupTrace(SetOf(todo), 5) && a.attempts == RowSlots(todo) + [10]
    && (Audited(a.log, q, w, base, n, SetOf(todo)) || Stopped(a.log, q, w, base, n, SetOf(todo), s))
  }

  lemma StopWritten(h: Host, q: Query, w: World, base: Slots, n: nat, log: seq<Write>, rows: set<nat>, operation: Err)
    requires |h.workers| == 2 && AtRest(h, base, n) && AllEnded(h) && WorkersClear(h)
    requires Pending(h) <==> LateApproval(base, w)
    requires KeysApart(q.names) && w.started <= w.stopNow <= MAX_EXACT
    requires Audited(log, q, w, base, n, rows) && AllRecorded(h, ViewOf(log).p, 3)
    ensures var s := FinalStop(h, q, w, n, operation);
      Stopped(log + [Write(Some(10), StopRecord(s))], q, w, base, n, rows, s)
  {
    hide StopOk, StopClear, AllLoad, RoutesOk, ChainOk, Survives, AllRecorded, AtRest, Entries, GateList, Pending;
    StopHolds(h, base, ViewOf(log).p, q, w, n, rows, operation);
    StopLands(log, q, w, base, n, rows, FinalStop(h, q, w, n, operation));
  }

  /** Every step of the stop audit that is not the Host's own succeeds. */
  predicate AuditsAnswered(w: World) {
    && w.stopNow <= 9007199254740991 && w.stopBegin == OK && w.stopBuild == OK && w.stop == Ack && |w.audits| == 4
    && forall i :: 0 <= i < 4 ==> w.audits[i] == RoleAudit(OK, Ack, OK)
  }

  /** The answers of the stop audit, in order. */
  function AuditCode(q: Query, w: World, h: Host): Rc
    requires |h.workers| == 2 && |w.audits| == 4
  {
    FirstError(if w.stopNow > 9007199254740991 then ERANGE else w.stopBegin,
               FirstError(RolesCode(h, q.names, w.audits), FirstError(w.stopBuild, CreateCode(true, w.stop))))
  }

  ghost predicate StopIs(log: seq<Write>, s: Stop) {
    ValidLog(log) && (ViewOf(log).p[10].Some? ==> ViewOf(log).p[10].value == StopRecord(s))
  }

  lemma NoStopYet(log: seq<Write>, q: Query, w: World, base: Slots, n: nat, rows: set<nat>)
    requires Audited(log, q, w, base, n, rows)
    ensures ValidLog(log) && ViewOf(log).p[10].None? && n <= 10
  {
    hide RecordsOk, Survives, FinalAgrees;
  }

  lemma NoStopInBroken(a: Audit, q: Query, w: World, base: Slots, n: nat, done: seq<nat>, todo: seq<nat>)
    requires Broken(a, q, w, base, n, done, todo)
    ensures ValidLog(a.log) && ViewOf(a.log).p[10].None?
  {
    hide Audited, SetOf, RowSlots;
    if Audited(a.log, q, w, base, n, SetOf(done)) {
      NoStopYet(a.log, q, w, base, n, SetOf(done));
    } else {
      NoStopYet(a.log, q, w, base, n, SetOf(done) + {todo[|done|]});
    }
  }

  /** The cleanup rows, and then the stop record that lists them. */
  method StopAudit(q: Query, w: World, h: Host, operation: Err, ghost base: Slots, ghost n: nat)
    returns (a: Audit, rc: Rc, ghost done: seq<nat>)
    requires NamesOk(q.names) && WorldOk(w, q) && Stopping(h, q, w, base, n)
    requires AllEnded(h) && WorkersClear(h) && (Pending(h) <==> LateApproval(base, w))
    ensures rc == OK ==>
      && a.attempts == RowSlots(Todo(h, 3)) + [10] && n <= 10
      && Stopped(a.log, q, w, base, n, SetOf(Todo(h, 3)), FinalStop(h, q, w, n, operation))
    ensures n <= 10
    ensures rc != OK ==>
      || Broken(a, q, w, base, n, done, Todo(h, 3))
      || (done == Todo(h, 3) && StopBroken(a, q, w, base, n, done, FinalStop(h, q, w, n, operation)))
    ensures AuditsAnswered(w) && AllObservable(h, q.names) ==> rc == OK
    ensures AuditsAnswered(w) && rc != OK ==> RowMissing(a.log, a.attempts)
    ensures w.stop.Refused? ==> rc != OK && ValidLog(a.log) && ViewOf(a.log).p[10].None?
    ensures StopIs(a.log, FinalStop(h, q, w, n, operation)) && RowsTold(h, q.names, a.log) && rc == AuditCode(q, w, h)
  {
    hide Audited, AtRest, AllObservable, Pending, Todo, RowMissing, RoutesOk, Entries, AllRecorded, GateList,
         RowsTold, RolesCode, FinalStop;
    NoStopYet(h.log, q, w, base, n, {});
    NoRowsTold(h, q, w, base, n);
    a, rc, done := Audit(h.log, CleanupTrace({}, 0), [], []), if w.stopNow > MAX_EXACT then ERANGE else w.stopBegin, [];
    if rc != OK {
      assert SetOf([]) == {};
      return;
    }
    a, rc, done := CleanRetained(q, w, h, base, n);
    if rc != OK {
      NoStopInBroken(a, q, w, base, n, done, Todo(h, 3));
      return;
    }
    NoStopYet(a.log, q, w, base, n, SetOf(done));
    if w.stopBuild != OK { return a, w.stopBuild, done; }
    a, rc := WriteStop(q, w, h, operation, a, base, n, done);
  }

  lemma StopAppends(h: Host, q: Query, w: World, n: nat, log: seq<Write>, operation: Err)
    requires |h.workers| == 2 && AllEnded(h) && n <= 10 && ValidLog(log) && ViewOf(log).p[10].None?
    ensures StopIs(log, FinalStop(h, q, w, n, operation))
    ensures StopIs(log + [Write(Some(10), StopRecord(FinalStop(h, q, w, n, operation)))],
                   FinalStop(h, q, w, n, operation))
    ensures RowsTold(h, q.names, log) ==>
      RowsTold(h, q.names, log + [Write(Some(10), StopRecord(FinalStop(h, q, w, n, operation)))])
  {
    hide FinalStop;
    var e := Write(Some(10), StopRecord(FinalStop(h, q, w, n, operation)));
    ViewOfAppend(log, e);
    if RowsTold(h, q.names, log) { RowsStay(h, q.names, log, log + [e]); }
  }

  lemma RowsStay(h: Host, n: Names, log: seq<Write>, log': seq<Write>)
    requires |h.workers| == 2 && RowsTold(h, n, log) && ValidLog(log')
    requires forall i :: 11 <= i < 15 ==> ViewOf(log').p[i] == ViewOf(log).p[i]
    ensures RowsTold(h, n, log')
  {
    forall r | 0 <= r < 4
      ensures RowOf(h, n, ViewOf(log').p, r)
    {
      assert RowOf(h, n, ViewOf(log).p, r);
    }
  }

  /** The stop record itself. */
  method WriteStop(q: Query, w: World, h: Host, operation: Err, a0: Audit, ghost base: Slots, ghost n: nat,
                   ghost done: seq<nat>)
    returns (a: Audit, rc: Rc)
    requires NamesOk(q.names) && Stopping(h, q, w, base, n) && n <= 10 && w.started <= w.stopNow <= MAX_EXACT
    requires AllEnded(h) && WorkersClear(h) && (Pending(h) <==> LateApproval(base, w))
    requires Cleaning(a0, q, w, base, n, done) && a0.entries == Entries(h, q.names, 3)
    requires ValidLog(a0.log) && AllRecorded(h, ViewOf(a0.log).p, 3) && ViewOf(a0.log).p[10].None?
    ensures rc == OK ==>
      && a.attempts == RowSlots(done) + [10]
      && Stopped(a.log, q, w, base, n, SetOf(done), FinalStop(h, q, w, n, operation))
    ensures rc != OK ==> StopBroken(a, q, w, base, n, done, FinalStop(h, q, w, n, operation))
    ensures rc == OK <==> w.stop == Ack
    ensures w.stop.Refused? ==> a.log == a0.log
    ensures StopIs(a.log, FinalStop(h, q, w, n, operation)) && rc == CreateCode(true, w.stop)
    ensures RowsTold(h, q.names, a0.log) ==> RowsTold(h, q.names, a.log)
  {
    hide Audited, AtRest, Pending, RoutesOk, Entries, AllRecorded, GateList, Stopped, NoneTwice, KeysMade;
    var gates := GateIds(q.names, h.trace.acknowledged, n + 1);
    var s := StopOf(q, w, h.phase, operation, a0.entries, gates);
    StopWritten(h, q, w, base, n, a0.log, SetOf(done), operation);
    StopAppends(h, q, w, n, a0.log, operation);
    var (log, code) := Commit(a0.log, Write(Some(10), StopRecord(s)), true, w.stop);
    rc := code;
    a := a0.(log := log, cleanup := a0.cleanup.(failedGate := if rc == OK then 0 else 5),
             attempts := a0.attempts + [10]);
  }

  // ----- The failure records -----

  lemma CleanupKeysDistinct(n: Names, g: nat, h: nat)
    requires KeysApart(n) && g < 5 && h < 5 && CleanupKey(n, g) == CleanupKey(n, h)
    ensures g == h
  {
  }

  ghost predicate Ascending(s: seq<nat>) {
    && (forall i :: 0 <= i < |s| ==> s[i] < 4)
    && (forall i, j :: 0 <= i < j < |s| ==> s[i] < s[j])
  }

  /** The acknowledged cleanup names, by scanning the mask. */
  method CleanedIds(n: Names, mask: set<nat>, ghost done: seq<nat>) returns (ids: seq<string>)
    requires Ascending(done) && mask == SetOf(done)
    ensures ids == CleanupList(n, done)
  {
    ids := [];
    ghost var j := 0;
    for i := 0 to 4
      invariant j <= |done| && ids == CleanupList(n, done[..j])
      invariant forall k :: 0 <= k < j ==> done[k] < i
      invariant forall k :: j <= k < |done| ==> done[k] >= i
      invariant j == |done| || done[j] >= i
    {
      assert forall k :: 0 <= k < |done| ==> done[k] in mask;
      if i in mask {
        assert done[..j + 1] == done[..j] + [i];
        ids := ids + [CleanupKey(n, i)];
        j := j + 1;
      }
    }
    assert done[..j] == done;
  }

  function CleanupFailureOf(q: Query, w: World, phase: Phase, operation: Err, audit: Err, failedGate: nat,
                            gates: seq<string>, cleaned: seq<string>): (f: Failure)
    requires failedGate <= 5
    ensures f.CleanupFailure?
  {
    CleanupFailure(Header(2, CleanupSemantics, q.names.id, q.parent, OriginMonotonic), phase, operation,
                   if failedGate == 0 then None else Some(CleanupKey(q.names, failedGate - 1)), audit,
                   if failedGate == 0 then NotAttempted else Unresolved, w.failureNow, gates, cleaned)
  }

  lemma AttemptIs(q: Query, w: World, f: Failure, failedGate: nat)
    requires f.CleanupFailure? && 1 <= failedGate <= 5 && KeysApart(q.names)
    requires f.gate == Some(CleanupKey(q.names, failedGate - 1))
    ensures AttemptedGate(f, q.names) == failedGate - 1
  {
    var g := AttemptedGate(f, q.names);
    if g < 5 { CleanupKeysDistinct(q.names, g, failedGate - 1); }
  }

  /** What the records and the trace look like when the stop audit has failed. */
  ghost predicate AuditFailed(p: Slots, base: Slots, n: nat, cleanup: CleanupTrace, done: seq<nat>, todo: seq<nat>,
                              phase: Phase, operation: Err, now: int)
  {
    var g := cleanup.failedGate;
    && done <= todo && cleanup.acknowledged == SetOf(done) && g <= 5
    && (g == 5 ==> done == todo)
    && (1 <= g <= 4 ==> |done| < |todo| && g == todo[|done|] + 1)
    && (Shape(p, base, n, SetOf(done)) || (1 <= g <= 4 && Shape(p, base, n, SetOf(done) + {g - 1})))
    && (p[10].Some? ==> g == 5 && p[10].value.StopRecord? && p[10].value.stop.phase == phase
                        && p[10].value.stop.code == operation && p[10].value.stop.observed == now)
  }

  /** The attempted gate is the one that the trace names. */
  lemma AttemptHolds(q: Query, w: World, f: Failure, cleanup: CleanupTrace, done: seq<nat>, todo: seq<nat>)
    requires f.CleanupFailure? && KeysApart(q.names) && cleanup.failedGate <= 5 && |f.cleaned| == |done| <= |todo|
    requires f.gate == (if cleanup.failedGate == 0 then None else Some(CleanupKey(q.names, cleanup.failedGate - 1)))
    requires f.outcome == (if cleanup.failedGate == 0 then NotAttempted else Unresolved)
    requires cleanup.failedGate == 5 ==> done == todo
    requires 1 <= cleanup.failedGate <= 4 ==> |done| < |todo| && cleanup.failedGate == todo[|done|] + 1
    ensures AttemptOk(f, todo, AttemptedGate(f, q.names))
    ensures cleanup.failedGate != 0 ==> AttemptedGate(f, q.names) == cleanup.failedGate - 1
  {
    hide KeysApart, CleanupKey;
    if cleanup.failedGate != 0 { AttemptIs(q, w, f, cleanup.failedGate); }
  }

  lemma RowsHold(p: Slots, base: Slots, n: nat, cleanup: CleanupTrace, done: seq<nat>, todo: seq<nat>, phase: Phase,
                 operation: Err, now: int, f: Failure, gate: nat)
    requires AuditFailed(p, base, n, cleanup, done, todo, phase, operation, now) && f.CleanupFailure?
    requires |f.cleaned| == |done| && (forall i :: 0 <= i < |todo| ==> todo[i] < 4)
    requires f.gate.Some? <==> cleanup.failedGate != 0
    requires cleanup.failedGate != 0 ==> gate == cleanup.failedGate - 1
    requires f.phase == phase && f.operation == operation && now <= f.observed
    ensures CleanupRowsOk(f, p, todo, gate)
  {
    assert done == todo[..|done|];
  }

  lemma CleanupFailureFits(q: Query, w: World, p: Slots, base: Slots, n: nat, cleanup: CleanupTrace, done: seq<nat>,
                           todo: seq<nat>, phase: Phase, operation: Err, audit: Err, f: Failure)
    requires AuditFailed(p, base, n, cleanup, done, todo, phase, operation, w.stopNow)
    requires KeysApart(q.names) && RangeOk(PhaseIndex(phase), n) && todo == Expected(PhaseIndex(phase), n)
    requires phase == Approval && n == 9 ==> ReviewAt(base).Some? && ReviewAt(base).value.decision == Reject
    requires w.started <= w.stopNow <= w.failureNow <= MAX_EXACT
    requires f == CleanupFailureOf(q, w, phase, operation, audit, cleanup.failedGate, GateList(q.names, n + 1),
                                   CleanupList(q.names, done))
    ensures FailureOk(f, p, ManifestOf(q, w), q)
  {
    hide GateList, KeysApart, Expected, AuditFailed, CleanupRowsOk, AttemptOk, AttemptedGate, RangeOk, CleanupKey,
         NormalCount;
    FailedCounts(p, base, n, cleanup, done, todo, phase, operation, w.stopNow);
    RowsHold(p, base, n, cleanup, done, todo, phase, operation, w.stopNow, f,
             if cleanup.failedGate == 0 then AttemptedGate(f, q.names) else cleanup.failedGate - 1);
    AttemptHolds(q, w, f, cleanup, done, todo);
    assert done == todo[..|done|];
  }

  lemma FailedCounts(p: Slots, base: Slots, n: nat, cleanup: CleanupTrace, done: seq<nat>, todo: seq<nat>, phase: Phase,
                     operation: Err, now: int)
    requires AuditFailed(p, base, n, cleanup, done, todo, phase, operation, now)
    ensures NormalCount(p) == n <= 10 && ReviewAt(p) == ReviewAt(base) && p[15].None? && done <= todo
    ensures cleanup.failedGate <= 5 && cleanup.acknowledged == SetOf(done)
    ensures cleanup.failedGate == 5 ==> done == todo
    ensures 1 <= cleanup.failedGate <= 4 ==> |done| < |todo| && cleanup.failedGate == todo[|done|] + 1
  {
    CountIs(p, n);
  }

  lemma BrokenIsFailed(a: Audit, q: Query, w: World, base: Slots, n: nat, done: seq<nat>, todo: seq<nat>, s: Stop,
                       phase: Phase, operation: Err)
    requires Broken(a, q, w, base, n, done, todo) || (done == todo && StopBroken(a, q, w, base, n, done, s))
    requires s.phase == phase && s.code == operation && s.observed == w.stopNow
    ensures Surviving(a.log, q, w) && ValidLog(a.log)
    ensures AuditFailed(ViewOf(a.log).p, base, n, a.cleanup, done, todo, phase, operation, w.stopNow)
    ensures var g := a.cleanup.failedGate;
      a.attempts == RowSlots(done) + (if g == 0 then [] else if g == 5 then [10] else [10 + g])
  {
    hide RecordsOk, Survives, FinalAgrees, RowSlots;
  }

  lemma ExpectedAscends(phase: nat, n: nat, done: seq<nat>)
    requires done <= Expected(phase, n)
    ensures Ascending(done)
  {
  }

  /** The diagnostic slot holds nothing, or a failure record of this version. */
  ghost predicate DiagnosticIs(p: Slots, gateFailure: bool) {
    p[15].Some? ==> p[15].value.FailureRecord? && p[15].value.failure.GateFailure? == gateFailure
  }

  ghost predicate FailureIs(p: Slots, f: Failure) {
    p[15].Some? ==> p[15].value == FailureRecord(f)
  }

  /** A version 2 record tells of the operation and its phase, and of the audit's own error. */
  ghost predicate CleanupTells(p: Slots, q: Query, w: World, phase: Phase, operation: Rc, audit: Rc, passed: nat)
    requires passed <= 11
  {
    p[15].Some? ==>
      && p[15].value.FailureRecord? && p[15].value.failure.CleanupFailure?
      && var f := p[15].value.failure;
         && f.header == Header(2, CleanupSemantics, q.names.id, q.parent, OriginMonotonic) && f.phase == phase
         && f.operation == operation && f.gateCode == audit && f.observed == w.failureNow
         && f.gates == GateList(q.names, passed)
  }

  /** A version 1 record tells of the operation, its phase and the gate that failed it. */
  ghost predicate GateTells(p: Slots, q: Query, w: World, phase: Phase, operation: Rc, passed: nat)
    requires 1 <= passed <= 10
  {
    p[15].Some? ==>
      && p[15].value.FailureRecord? && p[15].value.failure.GateFailure?
      && var f := p[15].value.failure;
         && f.header == Header(1, GateSemantics, q.names.id, q.parent, OriginMonotonic) && f.phase == phase
         && f.gateId == q.names.keys[passed - 1] && f.gateCode == operation && f.outcome == Unresolved
         && f.observed == w.failureNow && f.gates == GateList(q.names, passed)
  }

  /** Nothing stands between the Host and the diagnostic record but the store's answer. */
  predicate FailureAnswered(w: World) {
    w.failureNow <= 9007199254740991 && w.failureBuild == OK
  }

  /** The diagnostic record was attempted exactly if it could be built, and it exists exactly if the
      store did not refuse it. */
  ghost predicate Diagnosed(p: Slots, w: World, before: seq<nat>, attempts: seq<nat>) {
    && attempts == (if FailureAnswered(w) then before + [15] else before)
    && (p[15].Some? <==> FailureAnswered(w) && !w.failure.Refused?)
  }

  /** The version 2 record from the two traces. */
  method CleanupFailureRecord(q: Query, w: World, h: Host, cleanup: CleanupTrace, operation: Err, audit: Err,
                              ghost n: nat, ghost done: seq<nat>)
    returns (f: Failure)
    requires TablesAgree(q.names) && n <= 10 && h.trace.acknowledged == Below(n + 1) && cleanup.failedGate <= 5
    requires Ascending(done) && cleanup.acknowledged == SetOf(done)
    ensures f == CleanupFailureOf(q, w, h.phase, operation, audit, cleanup.failedGate, GateList(q.names, n + 1),
                                  CleanupList(q.names, done))
  {
    hide GateList, CleanupList, SetOf;
    var gates := GateIds(q.names, h.trace.acknowledged, n + 1);
    var cleaned := CleanedIds(q.names, cleanup.acknowledged, done);
    f := CleanupFailureOf(q, w, h.phase, operation, audit, cleanup.failedGate, gates, cleaned);
  }

  /** One create in the diagnostic slot. */
  method Diagnose(q: Query, w: World, log0: seq<Write>, attempts0: seq<nat>, f: Failure)
    returns (log: seq<Write>, attempts: seq<nat>)
    requires Surviving(log0, q, w) && ValidLog(log0) && ViewOf(log0).p[15].None? && FailureAnswered(w)
    requires FailureOk(f, ViewOf(log0).p, ManifestOf(q, w), q)
    ensures Surviving(log, q, w) && ValidLog(log) && Diagnosed(ViewOf(log).p, w, attempts0, attempts)
    ensures forall i :: 0 <= i < 15 ==> ViewOf(log).p[i] == ViewOf(log0).p[i]
    ensures DiagnosticIs(ViewOf(log).p, f.GateFailure?) && FailureIs(ViewOf(log).p, f)
  {
    hide Survives, FailureOk, Owned, ManifestOf;
    FailureLands(log0, q, w, f);
    LandsValid(log0, f);
    var (committed, _) := Commit(log0, Write(Some(15), FailureRecord(f)), true, w.failure);
    log, attempts := committed, attempts0 + [15];
  }

  lemma LandsValid(log: seq<Write>, f: Failure)
    requires ValidLog(log)
    ensures ValidLog(log + [Write(Some(15), FailureRecord(f))])
  {
  }

  /** Version 2: the stop audit failed. The attempt itself is never audited again. */
  method CleanupFailureAudit(q: Query, w: World, h: Host, a: Audit, operation: Err, audit: Err,
                             ghost base: Slots, ghost n: nat, ghost done: seq<nat>)
    returns (log: seq<Write>, attempts: seq<nat>)
    requires NamesOk(q.names) && WorldOk(w, q) && RangeOk(PhaseIndex(h.phase), n) && n <= 10
    requires h.trace.acknowledged == Below(n + 1) && !h.trace.gateFailed && Surviving(a.log, q, w) && ValidLog(a.log)
    requires AuditFailed(ViewOf(a.log).p, base, n, a.cleanup, done, Expected(PhaseIndex(h.phase), n), h.phase,
                         operation, w.stopNow)
    requires h.phase == Approval && n == 9 ==> ReviewAt(base).Some? && ReviewAt(base).value.decision == Reject
    ensures Surviving(log, q, w) && ValidLog(log) && Diagnosed(ViewOf(log).p, w, a.attempts, attempts)
    ensures forall i :: 0 <= i < 15 ==> ViewOf(log).p[i] == ViewOf(a.log).p[i]
    ensures DiagnosticIs(ViewOf(log).p, false)
    ensures CleanupTells(ViewOf(log).p, q, w, h.phase, operation, audit, n + 1)
  {
    hide Surviving, Expected, RangeOk, GateList, CleanupList, AuditFailed, FailureOk, NoneTwice, KeysMade, KeysApart,
         NormalCount, Ascending, SetOf, TablesAgree;
    log, attempts := a.log, a.attempts;
    FailedCounts(ViewOf(a.log).p, base, n, a.cleanup, done, Expected(PhaseIndex(h.phase), n), h.phase, operation,
                 w.stopNow);
    if 0 !in h.trace.acknowledged || h.trace.gateFailed || a.cleanup.failedGate > 5 { assert false; }
    if w.failureNow > MAX_EXACT || w.failureBuild != OK { return; }
    ExpectedAscends(PhaseIndex(h.phase), n, done);
    var f := CleanupFailureRecord(q, w, h, a.cleanup, operation, audit, n, done);
    CleanupFailureFits(q, w, ViewOf(a.log).p, base, n, a.cleanup, done, Expected(PhaseIndex(h.phase), n), h.phase,
                       operation, audit, f);
    log, attempts := Diagnose(q, w, a.log, a.attempts, f);
  }

  lemma NormalStays(p: Slots, base: Slots, n: nat, cleanup: CleanupTrace, done: seq<nat>, todo: seq<nat>, phase: Phase,
                    operation: Err, now: int)
    requires AuditFailed(p, base, n, cleanup, done, todo, phase, operation, now)
    ensures forall i :: 0 <= i < 10 ==> p[i] == base[i]
  {
  }

  /** The guard of the version 1 record. */
  predicate GateFailureGuard(trace: Trace) {
    || !trace.gateFailed || trace.failedGate == 0 || trace.failedGate >= 11
    || trace.acknowledged != Below(trace.failedGate)
  }

  function GateFailureOf(q: Query, w: World, phase: Phase, gate: nat, operation: Err, gates: seq<string>): (f: Failure)
    requires 1 <= gate <= 10
    ensures f.GateFailure?
  {
    GateFailure(Header(1, GateSemantics, q.names.id, q.parent, OriginMonotonic), phase, q.names.gateKeys[gate],
                operation, Unresolved, w.failureNow, gates)
  }

  lemma {:induction false} FailedGateFound(f: Failure, n: Names, gate: nat, from: nat)
    requires f.GateFailure? && KeysApart(n) && 1 <= from <= gate <= 10 && f.gateId == n.keys[gate - 1]
    ensures FailedGate(f, n, from) == gate
    decreases gate - from
  {
    if from < gate { FailedGateFound(f, n, gate, from + 1); }
  }

  lemma GateFailureFits(q: Query, w: World, p: Slots, gate: nat, n: nat, phase: Phase, operation: Err)
    requires KeysApart(q.names) && TablesAgree(q.names) && 1 <= gate <= 10 && (n == gate - 1 || n == gate)
    requires forall i :: 0 <= i < 16 ==> (p[i].Some? <==> i < n)
    requires phase == GatePhase(gate) || (gate == 9 && phase == Approval)
    requires w.started <= w.failureNow <= MAX_EXACT
    ensures FailureOk(GateFailureOf(q, w, phase, gate, operation, GateList(q.names, gate)), p, ManifestOf(q, w), q)
  {
    hide GateList, KeysApart, NormalCount, FailedGate;
    CountIs(p, n);
    FailedGateFound(GateFailureOf(q, w, phase, gate, operation, GateList(q.names, gate)), q.names, gate, 1);
  }

  lemma GateStoppedRecords(h: Host, q: Query, w: World)
    requires GateStopped(h, q, w)
    ensures Surviving(h.log, q, w) && ValidLog(h.log) && !GateFailureGuard(h.trace)
    ensures var g := h.trace.failedGate;
      || (forall i :: 0 <= i < 16 ==> (ViewOf(h.log).p[i].Some? <==> i < g - 1))
      || (forall i :: 0 <= i < 16 ==> (ViewOf(h.log).p[i].Some? <==> i < g))
  {
    hide RecordsOk, Survives;
  }

  lemma GateFailureLands(q: Query, w: World, h: Host, operation: Err)
    requires NamesOk(q.names) && WorldOk(w, q) && GateStopped(h, q, w) && w.failureNow <= MAX_EXACT
    ensures var f := GateFailureOf(q, w, h.phase, h.trace.failedGate, operation, GateList(q.names, h.trace.failedGate));
      ValidLog(h.log) && ViewOf(h.log).p[15].None? && FailureOk(f, ViewOf(h.log).p, ManifestOf(q, w), q)
  {
    GateStoppedRecords(h, q, w);
    hide Sound, Surviving, FailureOk, GateList, KeysMade, NoneTwice;
    var g, p := h.trace.failedGate, ViewOf(h.log).p;
    if forall i :: 0 <= i < 16 ==> (p[i].Some? <==> i < g) {
      GateFailureFits(q, w, p, g, g, h.phase, operation);
    } else {
      GateFailureFits(q, w, p, g, g - 1, h.phase, operation);
    }
  }

  /** Version 1: a normal gate failed. The guard never refuses, and the record exists exactly if it
      could be built and the store did not refuse it. */
  method GateFailureAudit(q: Query, w: World, h: Host, operation: Err) returns (log: seq<Write>, attempts: seq<nat>)
    requires NamesOk(q.names) && WorldOk(w, q) && GateStopped(h, q, w)
    ensures Surviving(log, q, w) && ValidLog(log) && Diagnosed(ViewOf(log).p, w, [], attempts)
    ensures forall i :: 0 <= i < 15 ==> ViewOf(log).p[i] == ViewOf(h.log).p[i]
    ensures DiagnosticIs(ViewOf(log).p, true)
    ensures 1 <= h.trace.failedGate <= 10 && GateTells(ViewOf(log).p, q, w, h.phase, operation, h.trace.failedGate)
  {
    hide GateStopped, Surviving, GateList, FailureOk, NoneTwice, KeysMade, KeysApart, WorldOk;
    log, attempts := h.log, [];
    GateStoppedRecords(h, q, w);
    if GateFailureGuard(h.trace) { assert false; }
    if w.failureNow > MAX_EXACT || w.failureBuild != OK { return; }
    GateFailureLands(q, w, h, operation);
    var g := h.trace.failedGate;
    var gates := GateIds(q.names, h.trace.acknowledged, g);
    var f := GateFailureOf(q, w, h.phase, g, operation, gates);
    log, attempts := Diagnose(q, w, h.log, [], f);
  }

  // ----- The whole run -----

  /** The records of a surviving view say what the answers to the run say, and the inspection accepts
      the view exactly when the final observation is as expected and no approval was left pending by
      the stop. */
  ghost predicate Agreement(v: View, q: Query, w: World) {
    && v.Valid() && ManifestTells(v, q, w) && Told(v.p, q, w)
    && (Accepts(v, q) <==> (v.p[8].None? || FinalClean(w)) && (v.p[10].None? || !LateApproval(v.p, w)))
  }

  ghost predicate Agrees(log: seq<Write>, q: Query, w: World) {
    ValidLog(log) && forall k {:trigger Prefix(log, k)} :: 1 <= k <= |log| ==> Agreement(ViewOf(Prefix(log, k)), q, w)
  }

  /** The acknowledged gates are a prefix, and a failed gate is exactly the next one. */
  ghost predicate TraceOk(trace: Trace) {
    exists g: nat :: g <= 11 && trace.acknowledged == Below(g) && (trace.gateFailed ==> g < 11 && trace.failedGate == g)
  }

  lemma SurvivalIsAgreement(log: seq<Write>, q: Query, w: World)
    requires NamesOk(q.names) && WorldOk(w, q) && ValidLog(log) && Survives(log, VerdictOf(q, w))
    ensures Agrees(log, q, w)
  {
    forall k | 1 <= k <= |log|
      ensures Agreement(ViewOf(Prefix(log, k)), q, w)
    {
      var v := ViewOf(Prefix(log, k));
      assert VerdictOf(q, w)(v);
      VerdictIsAgreement(v, q, w);
    }
  }

  lemma VerdictIsAgreement(v: View, q: Query, w: World)
    requires NamesOk(q.names) && WorldOk(w, q) && Verdict(v, q, w)
    ensures Agreement(v, q, w)
  {
    hide LoadedOk, RoutesOk, ChainOk, TailOk, ManifestOk, NoApprovalLeft, FinalStatusOk, Told, ManifestOf,
         ManifestTells;
    ManifestPasses(q, w);
    ManifestTold(v, q, w);
  }

  lemma AttemptsOnce(done: seq<nat>, todo: seq<nat>, g: nat)
    requires Ascending(todo) && done <= todo && g <= 5 && (1 <= g <= 4 ==> |done| < |todo| && g == todo[|done|] + 1)
    ensures var attempts := RowSlots(done) + (if g == 0 then [] else if g == 5 then [10] else [10 + g]);
      NoneTwice(attempts) && NoneTwice(attempts + [15])
  {
  }

  /** After the normal records only attempted slots hold a record, and a further cleanup create was
      attempted only once the one before it was stored. */
  ghost predicate InTurn(p: Slots, attempts: seq<nat>) {
    && (forall i :: 0 <= i < |attempts| ==> 10 <= attempts[i] < 16)
    && (forall s :: 10 <= s < 16 && p[s].Some? ==> s in attempts)
    && (forall i :: 0 <= i < |attempts| - 1 && attempts[i + 1] != 15 ==> p[attempts[i]].Some?)
  }

  lemma RowsInTurn(p: Slots, base: Slots, n: nat, done: seq<nat>, todo: seq<nat>, g: nat)
    requires Ascending(todo) && done <= todo && g <= 5 && (1 <= g <= 4 ==> |done| < |todo| && g == todo[|done|] + 1)
    requires Shape(p, base, n, SetOf(done)) || (1 <= g <= 4 && Shape(p, base, n, SetOf(done) + {g - 1}))
    requires p[10].Some? ==> g == 5
    ensures InTurn(p, RowSlots(done) + (if g == 0 then [] else if g == 5 then [10] else [10 + g]))
  {
    var last := if g == 0 then [] else if g == 5 then [10] else [10 + g];
    var attempts := RowSlots(done) + last;
    forall i | 0 <= i < |done|
      ensures attempts[i] == 11 + done[i] && p[11 + done[i]].Some?
    {
      assert done[i] in SetOf(done);
    }
    forall s | 10 <= s < 16 && p[s].Some?
      ensures s in attempts
    {
      if 11 <= s < 15 && s - 11 in done {
        var i :| 0 <= i < |done| && done[i] == s - 11;
        assert attempts[i] == s;
      } else {
        assert s in last;
      }
    }
  }

  lemma DiagnosisInTurn(p: Slots, p': Slots, w: World, before: seq<nat>, attempts: seq<nat>)
    requires InTurn(p, before) && Diagnosed(p', w, before, attempts) && forall i :: 0 <= i < 15 ==> p'[i] == p[i]
    requires 15 !in before
    ensures InTurn(p', attempts)
  {
    hide FailureAnswered;
  }

  lemma FailedInTurn(p: Slots, base: Slots, n: nat, cleanup: CleanupTrace, done: seq<nat>, todo: seq<nat>,
                     phase: Phase, operation: Err, now: int)
    requires AuditFailed(p, base, n, cleanup, done, todo, phase, operation, now) && Ascending(todo)
    ensures var g := cleanup.failedGate;
      var attempts := RowSlots(done) + (if g == 0 then [] else if g == 5 then [10] else [10 + g]);
      InTurn(p, attempts) && 15 !in attempts
  {
    hide InTurn, Shape;
    RowsInTurn(p, base, n, done, todo, cleanup.failedGate);
  }

  /** What is left after an operational stop at `base`: the normal records as they were, and a stop
      record that was acknowledged last, or a diagnostic as far as the store took it. */
  ghost predicate Closed(log: seq<Write>, q: Query, w: World, base: Slots, attempts: seq<nat>) {
    && Surviving(log, q, w) && NoneTwice(attempts) && InTurn(ViewOf(log).p, attempts)
    && DiagnosticIs(ViewOf(log).p, false)
    && (forall i :: 0 <= i < 10 ==> ViewOf(log).p[i] == base[i])
    && StopAccounted(ViewOf(log).p, w, attempts)
  }

  ghost predicate StopAccounted(p: Slots, w: World, attempts: seq<nat>) {
    || (p[10].Some? && p[15].None? && attempts != [] && attempts[|attempts| - 1] == 10)
    || exists before {:trigger Diagnosed(p, w, before, attempts)} :: Diagnosed(p, w, before, attempts)
  }

  lemma StopCloses(log: seq<Write>, q: Query, w: World, base: Slots, n: nat, todo: seq<nat>, s: Stop)
    requires Stopped(log, q, w, base, n, SetOf(todo), s) && Ascending(todo)
    ensures Closed(log, q, w, base, RowSlots(todo) + [10]) && ViewOf(log).p[10].Some? && ViewOf(log).p[15].None?
  {
    hide Survives, RowSlots, InTurn, Ascending;
    AttemptsOnce(todo, todo, 5);
    RowsInTurn(ViewOf(log).p, base, n, todo, todo, 5);
    var attempts := RowSlots(todo) + [10];
    assert attempts[|attempts| - 1] == 10;
  }

  /** The stop audit failed: one diagnostic record. */
  method CloseFailed(q: Query, w: World, h: Host, a: Audit, operation: Err, code: Err, ghost base: Slots, ghost n: nat,
                     ghost done: seq<nat>, ghost s: Stop)
    returns (log: seq<Write>, attempts: seq<nat>)
    requires NamesOk(q.names) && WorldOk(w, q) && RangeOk(PhaseIndex(h.phase), n) && n <= 10
    requires h.trace.acknowledged == Below(n + 1) && !h.trace.gateFailed
    requires h.phase == Approval && n == 9 ==> ReviewAt(base).Some? && ReviewAt(base).value.decision == Reject
    requires var todo := Expected(PhaseIndex(h.phase), n);
      Broken(a, q, w, base, n, done, todo) || (done == todo && StopBroken(a, q, w, base, n, done, s))
    requires s.phase == h.phase && s.code == operation && s.observed == w.stopNow
    ensures Closed(log, q, w, base, attempts) && Diagnosed(ViewOf(log).p, w, a.attempts, attempts)
    ensures ValidLog(a.log) && ValidLog(log) && forall i :: 0 <= i < 15 ==> ViewOf(log).p[i] == ViewOf(a.log).p[i]
    ensures CleanupTells(ViewOf(log).p, q, w, h.phase, operation, code, n + 1)
  {
    hide Surviving, Broken, StopBroken, Expected, RangeOk, Ascending, RowSlots, AuditFailed, NamesOk, Diagnosed,
         WorldOk, NormalCount, NoneTwice, DiagnosticIs, Closed, InTurn, CleanupTells;
    ghost var todo := Expected(PhaseIndex(h.phase), n);
    ExpectedAscends(PhaseIndex(h.phase), n, todo);
    BrokenIsFailed(a, q, w, base, n, done, todo, s, h.phase, operation);
    NormalStays(ViewOf(a.log).p, base, n, a.cleanup, done, todo, h.phase, operation, w.stopNow);
    FailedCounts(ViewOf(a.log).p, base, n, a.cleanup, done, todo, h.phase, operation, w.stopNow);
    log, attempts := CleanupFailureAudit(q, w, h, a, operation, code, base, n, done);
    AttemptsEnd(ViewOf(log).p, w, done, todo, a.cleanup.failedGate, a.attempts, attempts);
    FailedInTurn(ViewOf(a.log).p, base, n, a.cleanup, done, todo, h.phase, operation, w.stopNow);
    DiagnosisInTurn(ViewOf(a.log).p, ViewOf(log).p, w, a.attempts, attempts);
    DiagnosisCloses(log, q, w, base, a.attempts, attempts);
  }

  lemma DiagnosisCloses(log: seq<Write>, q: Query, w: World, base: Slots, before: seq<nat>, attempts: seq<nat>)
    requires Surviving(log, q, w) && ValidLog(log) && NoneTwice(attempts) && DiagnosticIs(ViewOf(log).p, false)
    requires Diagnosed(ViewOf(log).p, w, before, attempts) && InTurn(ViewOf(log).p, attempts)
    requires forall i :: 0 <= i < 10 ==> ViewOf(log).p[i] == base[i]
    ensures Closed(log, q, w, base, attempts)
  {
    hide Surviving, NoneTwice, DiagnosticIs, Diagnosed, InTurn;
  }

  lemma AttemptsEnd(p: Slots, w: World, done: seq<nat>, todo: seq<nat>, g: nat, before: seq<nat>, attempts: seq<nat>)
    requires Ascending(todo) && done <= todo && g <= 5 && (1 <= g <= 4 ==> |done| < |todo| && g == todo[|done|] + 1)
    requires before == RowSlots(done) + (if g == 0 then [] else if g == 5 then [10] else [10 + g])
    requires Diagnosed(p, w, before, attempts)
    ensures NoneTwice(attempts)
  {
    AttemptsOnce(done, todo, g);
  }

  /** What the records behind the normal ones say after an operational stop, and the final code: the
      operation's, unless the stop audit had an error of its own. */
  ghost predicate StopTells(log: seq<Write>, q: Query, w: World, h: Host, passed: nat, operation: Rc, rc: Rc)
    requires |h.workers| == 2 && |w.audits| == 4 && 1 <= passed <= 11
  {
    && AllEnded(h) && RowsTold(h, q.names, log)
    && StopIs(log, StopOf(q, w, h.phase, operation, Entries(h, q.names, 3), GateList(q.names, passed)))
    && CleanupTells(ViewOf(log).p, q, w, h.phase, operation, rc, passed)
    && var audit := AuditCode(q, w, h);
       rc == (if audit == OK then operation else audit) && (audit == OK ==> ViewOf(log).p[15].None?)
  }

  lemma StopSays(log: seq<Write>, log': seq<Write>, q: Query, w: World, h: Host, n: nat, operation: Err, code: Rc)
    requires |h.workers| == 2 && |w.audits| == 4 && AllEnded(h) && n <= 10
    requires StopIs(log, FinalStop(h, q, w, n, operation)) && RowsTold(h, q.names, log) && code == AuditCode(q, w, h)
    requires ValidLog(log') && forall i :: 10 <= i < 15 ==> ViewOf(log').p[i] == ViewOf(log).p[i]
    requires if code == OK then ViewOf(log').p[15].None?
             else CleanupTells(ViewOf(log').p, q, w, h.phase, operation, code, n + 1)
    ensures StopTells(log', q, w, h, n + 1, operation, if code == OK then operation else code)
  {
    hide RowsTold, Entries, AuditCode, GateList, AllEnded;
    RowsStay(h, q.names, log, log');
  }

  /** After an operational stop: the stop audit, and on its failure one diagnostic record. */
  method OperationalAudit(q: Query, w: World, h0: Host, operation: Err)
    returns (log: seq<Write>, attempts: seq<nat>, rc: Rc)
    requires NamesOk(q.names) && WorldOk(w, q) && Operational(h0, q, w)
    ensures rc != OK && ValidLog(h0.log) && Closed(log, q, w, ViewOf(h0.log).p, attempts)
    ensures |h0.workers| == 2 && AllEnded(Drained(h0, w))
    ensures AuditsAnswered(w) && AllObservable(Drained(h0, w), q.names) ==> ViewOf(log).p[10].Some?
    ensures AuditsAnswered(w) ==> ViewOf(log).p[10].Some? || RowSkipped(ViewOf(log).p, attempts)
    ensures w.stop.Refused? ==>
      ViewOf(log).p[10].None? && (ViewOf(log).p[15].Some? <==> FailureAnswered(w) && !w.failure.Refused?)
    ensures NormalCount(ViewOf(h0.log).p) <= 10
    ensures StopTells(log, q, w, Drained(h0, w), NormalCount(ViewOf(h0.log).p) + 1, operation, rc)
  {
    hide Sound, Survives, Table, AtRest, AllEnded, Pending, Expected, AllObservable, Closed, Todo, Ascending, NamesOk,
         Drained, Stopping, AuditsAnswered, RowSkipped, FailureAnswered, StopTells, RowsTold, AuditCode, SegmentSeen,
         LateApproval, RangeOk, NormalCount, Entries, GateList, WorkersClear;
    BeginStop(q, w, h0, NormalCount(ViewOf(h0.log).p));
    log, attempts, rc :=
      CloseStop(q, w, Drained(h0, w), operation, ViewOf(h0.log).p, NormalCount(ViewOf(h0.log).p));
  }

  /** Everything after the drain. */
  method CloseStop(q: Query, w: World, h: Host, operation: Err, ghost base: Slots, ghost n: nat)
    returns (log: seq<Write>, attempts: seq<nat>, rc: Rc)
    requires NamesOk(q.names) && WorldOk(w, q) && |h.workers| == 2 && Stopping(h, q, w, base, n) && n <= 10
    requires h.trace.acknowledged == Below(n + 1) && !h.trace.gateFailed
    requires AllEnded(h) && WorkersClear(h) && (Pending(h) <==> LateApproval(base, w))
    requires Todo(h, 3) == Expected(PhaseIndex(h.phase), n) && RangeOk(PhaseIndex(h.phase), n) && Ascending(Todo(h, 3))
    requires h.phase == Approval && n == 9 ==> ReviewAt(base).Some? && ReviewAt(base).value.decision == Reject
    ensures rc != OK && Closed(log, q, w, base, attempts)
    ensures AuditsAnswered(w) && AllObservable(h, q.names) ==> ViewOf(log).p[10].Some?
    ensures AuditsAnswered(w) ==> ViewOf(log).p[10].Some? || RowSkipped(ViewOf(log).p, attempts)
    ensures w.stop.Refused? ==>
      ViewOf(log).p[10].None? && (ViewOf(log).p[15].Some? <==> FailureAnswered(w) && !w.failure.Refused?)
    ensures StopTells(log, q, w, h, n + 1, operation, rc)
  {
    hide Survives, AtRest, AllEnded, Pending, Expected, AllObservable, AuditFailed, Broken, StopBroken, Stopped,
         Closed, RowSlots, Todo, Ascending, NamesOk, Stopping, AuditsAnswered, RowMissing, RowSkipped,
         FailureAnswered, StopTells, RowsTold, AuditCode, LateApproval, RangeOk, Entries, GateList, WorkersClear;
    var a, code, done := StopAudit(q, w, h, operation, base, n);
    ghost var s := FinalStop(h, q, w, n, operation);
    log, attempts, rc := a.log, a.attempts, operation;
    if code == OK {
      StopCloses(log, q, w, base, n, Todo(h, 3), s);
      StopSays(log, log, q, w, h, n, operation, code);
    } else {
      rc := code;
      log, attempts := CloseFailed(q, w, h, a, operation, code, base, n, done, s);
      StopSays(a.log, log, q, w, h, n, operation, code);
      if AuditsAnswered(w) { MissingIsSkipped(a, log, w, attempts); }
    }
  }

  /** Some cleanup row was attempted and is not stored: the Router refused the observation. */
  ghost predicate RowSkipped(p: Slots, attempts: seq<nat>) {
    exists s :: s in attempts && 11 <= s < 15 && p[s].None?
  }

  lemma MissingIsSkipped(a: Audit, log: seq<Write>, w: World, attempts: seq<nat>)
    requires RowMissing(a.log, a.attempts) && ValidLog(log) && Diagnosed(ViewOf(log).p, w, a.attempts, attempts)
    requires forall i :: 0 <= i < 15 ==> ViewOf(log).p[i] == ViewOf(a.log).p[i]
    ensures RowSkipped(ViewOf(log).p, attempts)
  {
    var s := a.attempts[|a.attempts| - 1];
    assert s in attempts;
  }

  lemma RejectedReview(h: Host, p: Slots, n: Names, k: nat)
    requires |h.workers| == 2 && Table(h, p, n, k)
    ensures h.phase == Approval && k == 9 ==> ReviewAt(p).Some? && ReviewAt(p).value.decision == Reject
  {
  }

  lemma AtRestRange(h: Host, p: Slots, n: nat)
    requires |h.workers| == 2 && AtRest(h, p, n)
    ensures RangeOk(PhaseIndex(h.phase), n)
  {
    hide Settled, RangeOk;
  }

  lemma DrainedKeeps(h: Host, w: World)
    requires |h.workers| == 2 && |w.drainWorkers| == 2
    requires w.drainWorkers[0].Ended? && w.drainWorkers[1].Ended? && w.drainTask.Ended?
    ensures Drained(h, w).trace == h.trace && Drained(h, w).phase == h.phase && Drained(h, w).log == h.log
  {
  }

  lemma ApprovalAfterDrain(h: Host, p: Slots, q: Query, w: World, n: nat)
    requires WorldOk(w, q) && RoutesOk(p, q) && (forall i :: 0 <= i < 10 ==> (p[i].Some? <==> i < n))
    requires |h.workers| == 2 && Table(h, p, q.names, n) && SegmentSeen(h, w, n)
    ensures WorkersClear(Drained(h, w)) && (Pending(Drained(h, w)) <==> LateApproval(p, w))
  {
    DrainApproval(h, p, q, w, n);
    hide Table, SegmentSeen, RoutesOk, LateApproval, ApprovalPending, Drain;
  }

  lemma BeginStop(q: Query, w: World, h: Host, n: nat)
    requires WorldOk(w, q) && Operational(h, q, w) && n == NormalCount(ViewOf(h.log).p)
    ensures |h.workers| == 2 && AllEnded(Drained(h, w)) && WorkersClear(Drained(h, w))
    ensures ValidLog(h.log) && Stopping(Drained(h, w), q, w, ViewOf(h.log).p, n)
    ensures Pending(Drained(h, w)) <==> LateApproval(ViewOf(h.log).p, w)
    ensures Todo(Drained(h, w), 3) == Expected(PhaseIndex(h.phase), n) && RangeOk(PhaseIndex(h.phase), n)
    ensures Ascending(Todo(Drained(h, w), 3)) && n <= 10
    ensures h.phase == Approval && n == 9 ==>
      ReviewAt(ViewOf(h.log).p).Some? && ReviewAt(ViewOf(h.log).p).value.decision == Reject
    ensures Drained(h, w).trace == h.trace && Drained(h, w).phase == h.phase
  {
    hide Sound, Table, SegmentSeen, AtRest, RoutesOk, Audited, AllEnded, WorkersClear, Pending, LateApproval, Todo,
         Expected, RangeOk, Ascending, NormalCount, Drained, Normal;
    var p := ViewOf(h.log).p;
    RoutesOf(h.log, q, w, n);
    DrainedKeeps(h, w);
    DrainSettles(h, p, q, w, n);
    AtRestRange(Drained(h, w), p, n);
    TodoIsExpected(h, p, q, w, n);
    ExpectedAscends(PhaseIndex(h.phase), n, Expected(PhaseIndex(h.phase), n));
    ApprovalAfterDrain(h, p, q, w, n);
    AuditBegins(h.log, q, w, n);
    EndedAtRest(Drained(h, w), p, n);
    RejectedReview(h, p, q.names, n);
  }

  lemma TraceHolds(h: Host, q: Query, w: World)
    requires Good(h, q, w, 10) || Unreserved(h, q, w) || Halted(h, q, w)
    ensures TraceOk(h.trace)
    ensures 0 in h.trace.acknowledged && h.trace.gateFailed ==> GateStopped(h, q, w)
    ensures Halted(h, q, w) && !h.trace.gateFailed ==> Operational(h, q, w)
    ensures Unreserved(h, q, w) ==> 0 !in h.trace.acknowledged
    ensures 0 !in h.trace.acknowledged ==> Unreserved(h, q, w)
  {
    hide Sound, Survives, Table, SegmentSeen;
    if Unreserved(h, q, w) {
      assert h.trace.acknowledged == Below(0);
    } else if GateStopped(h, q, w) {
      assert h.trace.acknowledged == Below(h.trace.failedGate);
    } else {
      var n := if Good(h, q, w, 10) then 10 else NormalCount(ViewOf(h.log).p);
      assert h.trace.acknowledged == Below(n + 1);
    }
  }

  // ----- The trace against the records -----

  /** Write-ahead: an acknowledged gate has its record, and a record belongs to an acknowledged gate or
      to the one that failed. */
  ghost predicate WriteAhead(p: Slots, trace: Trace) {
    && (forall i: nat :: i < 10 && i + 1 in trace.acknowledged ==> p[i].Some?)
    && (forall i: nat :: i < 10 && p[i].Some? ==>
          i + 1 in trace.acknowledged || (trace.gateFailed && trace.failedGate == i + 1))
  }

  lemma SoundCounts(log: seq<Write>, q: Query, w: World, n: nat)
    requires ValidLog(log) && Sound(log, q, w, n)
    ensures n <= 10 && forall i :: 0 <= i < 16 ==> (ViewOf(log).p[i].Some? <==> i < n)
  {
    hide RecordsOk, Survives;
  }

  lemma GoodCounts(h: Host, q: Query, w: World, n: nat)
    requires Good(h, q, w, n)
    ensures n <= 10 && ValidLog(h.log) && forall i :: 0 <= i < 16 ==> (ViewOf(h.log).p[i].Some? <==> i < n)
    ensures h.trace.acknowledged == Below(n + 1) && !h.trace.gateFailed
  {
    hide Sound;
    SoundCounts(h.log, q, w, n);
  }

  lemma UnreservedIsEmpty(h: Host, q: Query, w: World)
    requires Unreserved(h, q, w)
    ensures ValidLog(h.log) && |h.log| <= 1 && (forall i :: 0 <= i < 16 ==> ViewOf(h.log).p[i].None?)
    ensures h.trace.acknowledged == {} && (h.log != [] ==> w.manifest.Lost?)
  {
    hide Survives;
    if h.log != [] { assert h.log[..0] == []; }
  }

  lemma WriteAheadHolds(h: Host, q: Query, w: World)
    requires Good(h, q, w, 10) || Unreserved(h, q, w) || Halted(h, q, w)
    ensures ValidLog(h.log) && WriteAhead(ViewOf(h.log).p, h.trace)
  {
    hide Good, Unreserved, GateStopped, Table, SegmentSeen, NormalCount, Surviving, Below;
    if Unreserved(h, q, w) {
      UnreservedIsEmpty(h, q, w);
    } else if GateStopped(h, q, w) {
      GateStoppedRecords(h, q, w);
    } else {
      GoodCounts(h, q, w, if Good(h, q, w, 10) then 10 else NormalCount(ViewOf(h.log).p));
    }
  }

  lemma WriteAheadStays(p: Slots, p': Slots, trace: Trace)
    requires WriteAhead(p, trace) && forall i :: 0 <= i < 10 ==> p'[i] == p[i]
    ensures WriteAhead(p', trace)
  {
  }

  // ----- Families of runs -----

  /** The deadline passes while the execute segment runs, and every audit write is acknowledged. */
  predicate TimesOut(q: Query, w: World) {
    ReachesExecute(q, w) && w.executeWait.rc != OK
  }

  predicate TimeoutFamily(q: Query, w: World) {
    && TimesOut(q, w) && w.executeWait.segment.Running? && AuditsAnswered(w)
    && w.drainTask.Ended?
    && var o := ObservationOf(Drain(ExecuteTask(q, w), w.drainTask), q.names.keys[14]);
       ObservationValid(o, q.names.keys[14])
  }

  predicate AsksReview(s: Segment) {
    s.Ended? && s.status == INTERRUPTED && s.pending
  }

  /** The review rejects and its observation is stored. */
  predicate RejectedFamily(q: Query, w: World) {
    ReachesExecute(q, w) && PendingGood(q, w) && ReviewGood(q, w) && RejectedGood(q, w)
  }

  lemma TimeoutStops(q: Query, w: World, h: Host, p: Slots)
    requires TimeoutFamily(q, w) && h.phase == Execution && h.task == Some(ExecuteTask(q, w)) && h.role == Execute
    requires WorldOk(w, q) && NoWorkers(h) && (forall i :: 0 <= i < 10 ==> (p[i].Some? <==> i < 6))
    ensures AllEnded(Drained(h, w)) && AllObservable(Drained(h, w), q.names)
    ensures LateApproval(p, w) <==> AsksReview(w.drainTask)
  {
    hide TimesOut, AuditsAnswered, ObservationValid, TaskOf;
  }

  lemma StoppedHost(h: Host, q: Query, w: World)
    requires StoppedAt(h, q, w, 6) && h.phase == Execution
    ensures NoWorkers(h) && h.role == Execute && ValidLog(h.log)
    ensures forall i :: 0 <= i < 10 ==> (ViewOf(h.log).p[i].Some? <==> i < 6)
  {
    hide Good, SegmentSeen, NormalCount, Fresh;
    GoodCounts(h, q, w, 6);
    GoodWorkers(h, q, w, 6);
  }

  lemma GoodWorkers(h: Host, q: Query, w: World, n: nat)
    requires Good(h, q, w, n)
    ensures |h.workers| == 2
  {
    hide Sound;
  }

  lemma RejectedStops(q: Query, w: World, h: Host)
    requires StoppedAt(h, q, w, 9)
    ensures ViewOf(h.log).p[8].Some?
  {
    hide Good, Table, SegmentSeen, NormalCount;
    GoodCounts(h, q, w, 9);
  }

  lemma WholeAgrees(log: seq<Write>, q: Query, w: World)
    requires Owned(log) && log != [] && Agrees(log, q, w)
    ensures Agreement(ViewOf(log), q, w)
  {
    hide Agreement;
    assert Prefix(log, |log|) == log;
  }

  lemma DeliveredIsAccepted(log: seq<Write>, q: Query, w: World)
    requires Owned(log) && log != [] && Agrees(log, q, w) && Normal(ViewOf(log), q, 10) && w.decision == 1
    ensures Accepts(ViewOf(log), q) && ViewOf(log).p[9].Some?
  {
    WholeAgrees(log, q, w);
    hide RecordsOk, Accepts;
  }

  /** What the agreement says of each family. */
  lemma FamiliesAreJudged(log: seq<Write>, q: Query, w: World)
    requires Owned(log) && log != [] && Agrees(log, q, w)
    ensures ViewOf(log).p[8].Some? && !FinalClean(w) ==> !Accepts(ViewOf(log), q)
    ensures ViewOf(log).p[8].None? && ViewOf(log).p[10].Some? ==>
      (Accepts(ViewOf(log), q) <==> !LateApproval(ViewOf(log).p, w))
    ensures ViewOf(log).p[8].None? && ViewOf(log).p[10].None? ==> Accepts(ViewOf(log), q)
  {
    WholeAgrees(log, q, w);
    hide Accepts, LateApproval, FinalClean;
  }

  /** What the run's end leaves, in terms of the answers alone. */
  ghost predicate Ending(q: Query, w: World, p: Slots, trace: Trace, attempts: seq<nat>, delivered: bool) {
    && WriteAhead(p, trace) && DiagnosticIs(p, trace.gateFailed) && InTurn(p, attempts)
    && (0 in trace.acknowledged <==> ReserveGood(q, w))
    && (delivered <==> Smooth(q, w))
    && (delivered || !ReserveGood(q, w) ==> attempts == [] && p[10].None? && p[15].None?)
    && (ReserveGood(q, w) && trace.gateFailed ==> Diagnosed(p, w, [], attempts) && p[10].None?)
    && (ReserveGood(q, w) && !trace.gateFailed && !delivered ==>
          && StopAccounted(p, w, attempts)
          && (AuditsAnswered(w) ==> p[10].Some? || RowSkipped(p, attempts))
          && (w.stop.Refused? ==> p[10].None? && (p[15].Some? <==> FailureAnswered(w) && !w.failure.Refused?)))
  }

  lemma NothingToAudit(h: Host, q: Query, w: World, delivered: bool)
    requires if delivered then Good(h, q, w, 10) else Unreserved(h, q, w)
    requires (0 in h.trace.acknowledged <==> ReserveGood(q, w)) && (delivered <==> Smooth(q, w))
    ensures ValidLog(h.log) && Ending(q, w, ViewOf(h.log).p, h.trace, [], delivered)
  {
    hide Good, Unreserved, Halted, WriteAhead, ReserveGood, Smooth, StopAccounted, Diagnosed, AuditsAnswered,
         RowSkipped;
    WriteAheadHolds(h, q, w);
    if delivered { GoodCounts(h, q, w, 10); } else { UnreservedIsEmpty(h, q, w); }
  }

  lemma GateFailureEnds(h: Host, log: seq<Write>, q: Query, w: World, attempts: seq<nat>)
    requires GateStopped(h, q, w) && ReserveGood(q, w) && !Smooth(q, w)
    requires ValidLog(log) && Diagnosed(ViewOf(log).p, w, [], attempts) && DiagnosticIs(ViewOf(log).p, true)
    requires forall i :: 0 <= i < 15 ==> ViewOf(log).p[i] == ViewOf(h.log).p[i]
    ensures Ending(q, w, ViewOf(log).p, h.trace, attempts, false) && NoneTwice(attempts)
  {
    hide GateStopped, WriteAhead, Surviving, ReserveGood, Smooth, StopAccounted, AuditsAnswered, RowSkipped,
         FailureAnswered;
    GateStoppedRecords(h, q, w);
    FailedGateIs(h, q, w);
    WriteAheadHolds(h, q, w);
    WriteAheadStays(ViewOf(h.log).p, ViewOf(log).p, h.trace);
  }

  lemma FailedGateIs(h: Host, q: Query, w: World)
    requires GateStopped(h, q, w)
    ensures h.trace.gateFailed && 1 <= h.trace.failedGate <= 10 && 0 in h.trace.acknowledged
  {
    hide Sound;
  }

  lemma StopEnds(h: Host, log: seq<Write>, q: Query, w: World, attempts: seq<nat>)
    requires Operational(h, q, w) && ReserveGood(q, w) && !Smooth(q, w)
    requires Closed(log, q, w, ViewOf(h.log).p, attempts)
    requires AuditsAnswered(w) ==> ViewOf(log).p[10].Some? || RowSkipped(ViewOf(log).p, attempts)
    requires w.stop.Refused? ==>
      ViewOf(log).p[10].None? && (ViewOf(log).p[15].Some? <==> FailureAnswered(w) && !w.failure.Refused?)
    ensures ValidLog(log) && Ending(q, w, ViewOf(log).p, h.trace, attempts, false)
  {
    hide Operational, Surviving, WriteAhead, ReserveGood, Smooth, AuditsAnswered, RowSkipped, NoneTwice,
         StopAccounted, FailureAnswered;
    OperationalTrace(h, q, w);
    WriteAheadHolds(h, q, w);
    ClosedKeeps(log, q, w, ViewOf(h.log).p, attempts);
    WriteAheadStays(ViewOf(h.log).p, ViewOf(log).p, h.trace);
  }

  lemma OperationalTrace(h: Host, q: Query, w: World)
    requires Operational(h, q, w)
    ensures !h.trace.gateFailed && 0 in h.trace.acknowledged && ValidLog(h.log)
  {
    hide Sound, Table, SegmentSeen;
  }

  lemma SurvivingAgrees(log: seq<Write>, q: Query, w: World)
    requires NamesOk(q.names) && WorldOk(w, q) && Surviving(log, q, w)
    ensures Owned(log) && Agrees(log, q, w) && log != []
  {
    hide Agrees, NamesOk, WorldOk, Survives;
    SurvivalIsAgreement(log, q, w);
  }

  lemma UnauditedAgrees(h: Host, q: Query, w: World, delivered: bool)
    requires NamesOk(q.names) && WorldOk(w, q)
    requires if delivered then Good(h, q, w, 10) else Unreserved(h, q, w)
    ensures Owned(h.log) && Agrees(h.log, q, w) && NoneTwice<nat>([])
    ensures delivered ==> h.log != [] && Normal(ViewOf(h.log), q, 10)
    ensures !delivered ==> |h.log| <= 1 && 0 !in h.trace.acknowledged && (h.log != [] ==> w.manifest.Lost?)
  {
    hide Agrees, NamesOk, WorldOk, Normal;
    SurvivalIsAgreement(h.log, q, w);
  }

  lemma StoppedTrace(h: Host, q: Query, w: World, n: nat)
    requires StoppedAt(h, q, w, n)
    ensures Operational(h, q, w) && !h.trace.gateFailed && 0 in h.trace.acknowledged && ValidLog(h.log)
  {
    hide Operational;
    OperationalTrace(h, q, w);
  }

  lemma ClosedKeeps(log: seq<Write>, q: Query, w: World, base: Slots, attempts: seq<nat>)
    requires Closed(log, q, w, base, attempts)
    ensures Surviving(log, q, w) && ValidLog(log) && NoneTwice(attempts) && InTurn(ViewOf(log).p, attempts)
    ensures forall i :: 0 <= i < 10 ==> ViewOf(log).p[i] == base[i]
  {
    hide Survives, NoneTwice, InTurn;
  }

  // ----- What a run leaves, word for word -----

  /** The host where this course halts, with the tasks that it still retains. */
  ghost function HostAt(q: Query, w: World, c: Course): (h: Host)
    requires |w.workers| == |w.workerWait| == 2 && c.Halts?
    ensures |h.workers| == 2
  {
    Host(Trace(Below(c.passed), 0, false), c.phase,
         [KeptWorker(q, w, c.phase, c.passed, 0), KeptWorker(q, w, c.phase, c.passed, 1)],
         KeptTask(q, w, c.phase, c.passed), if c.phase == Aggregation then Aggregate else Execute, [])
  }

  ghost predicate Untailed(p: Slots) {
    forall i :: 10 <= i < 16 ==> p[i].None?
  }

  /** Every answer of the audit is there. */
  ghost predicate Answering(w: World) {
    && |w.workers| == |w.workerWait| == |w.drainWorkers| == 2 && |w.audits| == 4
    && w.drainWorkers[0].Ended? && w.drainWorkers[1].Ended? && w.drainTask.Ended?
  }

  lemma WorldAnswers(q: Query, w: World)
    requires WorldOk(w, q)
    ensures Answering(w)
  {
  }

  /** The first answer that is not good decides everything else: the code and the phase that the stop
      and failure records carry, the gate that a version 1 record names, the tasks that the stop lists
      and that the cleanup rows observe, and the code that the run returns. */
  ghost predicate Says(q: Query, w: World, c: Course, log: seq<Write>, trace: Trace, rc: Rc)
    requires Answering(w)
  {
    && ValidLog(log)
    && match c
       case Through => rc == OK && Untailed(ViewOf(log).p)
       case Halts(code, phase, passed, gate) =>
         && passed <= 11 && trace.acknowledged == Below(passed) && trace.gateFailed == gate
         && (gate ==> trace.failedGate == passed)
         && if passed == 0 then rc == code && Untailed(ViewOf(log).p)
            else if gate then
              && passed <= 10 && rc == code && GateTells(ViewOf(log).p, q, w, phase, code, passed)
              && forall i :: 10 <= i < 15 ==> ViewOf(log).p[i].None?
            else StopTells(log, q, w, Drained(HostAt(q, w, c), w), passed, code, rc)
  }

  lemma BelowOnce(a: nat, b: nat)
    requires Below(a) == Below(b)
    ensures a == b
  {
    assert a !in Below(a) && b !in Below(b);
    assert (a in Below(b) <==> a < b) && (b in Below(a) <==> b < a);
  }

  lemma SaysNothing(h: Host, q: Query, w: World, c: Course, rc: Rc)
    requires Answering(w) && Went(h, rc, q, w, c) && ValidLog(h.log) && Untailed(ViewOf(h.log).p)
    requires rc != OK ==> h.trace.acknowledged == {}
    ensures Says(q, w, c, h.log, h.trace, rc)
  {
    hide Answering, Retains, Untailed, StopTells, GateTells;
    if rc != OK { BelowOnce(c.passed, 0); }
  }

  lemma NothingBehind(h: Host, q: Query, w: World, rc: Rc)
    requires if rc == OK then Good(h, q, w, 10) else Unreserved(h, q, w)
    ensures ValidLog(h.log) && Untailed(ViewOf(h.log).p) && (rc != OK ==> h.trace.acknowledged == {})
  {
    hide Good, Unreserved;
    if rc == OK { GoodCounts(h, q, w, 10); } else { UnreservedIsEmpty(h, q, w); }
  }

  lemma SaysGate(h: Host, log: seq<Write>, q: Query, w: World, c: Course, rc: Rc)
    requires Answering(w) && Went(h, rc, q, w, c) && rc != OK && GateStopped(h, q, w)
    requires ValidLog(log) && ValidLog(h.log) && forall i :: 0 <= i < 15 ==> ViewOf(log).p[i] == ViewOf(h.log).p[i]
    requires 1 <= h.trace.failedGate <= 10 && GateTells(ViewOf(log).p, q, w, h.phase, rc, h.trace.failedGate)
    ensures Says(q, w, c, log, h.trace, rc)
  {
    hide Answering, Retains, StopTells, GateTells, GateStopped, Surviving;
    GateUntailed(h, q, w);
    FailedGateIs(h, q, w);
  }

  lemma GateUntailed(h: Host, q: Query, w: World)
    requires GateStopped(h, q, w)
    ensures ValidLog(h.log) && Untailed(ViewOf(h.log).p)
  {
    hide Surviving;
    GateStoppedRecords(h, q, w);
    FailedGateIs(h, q, w);
    hide GateStopped;
    var g, p := h.trace.failedGate, ViewOf(h.log).p;
    assert (forall i :: 0 <= i < 16 ==> (p[i].Some? <==> i < g - 1))
        || (forall i :: 0 <= i < 16 ==> (p[i].Some? <==> i < g));
  }

  lemma SameHost(h: Host, h': Host, q: Query, w: World, log: seq<Write>, passed: nat, operation: Err, rc: Rc)
    requires Answering(w) && 1 <= passed <= 11 && |h.workers| == |h'.workers| == 2
    requires h'.phase == h.phase && h'.workers == h.workers && h'.task == h.task
    requires h.task.Some? ==> TaskRole(h') == TaskRole(h)
    requires StopTells(log, q, w, Drained(h, w), passed, operation, rc)
    ensures StopTells(log, q, w, Drained(h', w), passed, operation, rc)
  {
    hide GateList, TaskCode, EntryOf, StopIs, CleanupTells, Drain, RowsTold;
    SameRows(Drained(h, w), Drained(h', w), q.names, log);
  }

  lemma SameRows(h: Host, h': Host, n: Names, log: seq<Write>)
    requires |h.workers| == |h'.workers| == 2 && h'.workers == h.workers && h'.task == h.task
    requires h.task.Some? ==> TaskRole(h) == TaskRole(h')
    requires RowsTold(h, n, log)
    ensures RowsTold(h', n, log)
  {
    forall r | 0 <= r < 4
      ensures RowOf(h', n, ViewOf(log).p, r)
    {
      assert RowOf(h, n, ViewOf(log).p, r);
    }
  }

  lemma SaysStop(h: Host, log: seq<Write>, q: Query, w: World, c: Course, n: nat, operation: Err, rc: Rc)
    requires Answering(w) && Went(h, operation, q, w, c) && h.trace.acknowledged == Below(n + 1) && n <= 10
    requires !h.trace.gateFailed && ValidLog(log) && |h.workers| == 2
    requires StopTells(log, q, w, Drained(h, w), n + 1, operation, rc)
    ensures Says(q, w, c, log, h.trace, rc)
  {
    hide StopTells, GateTells, Drained, KeptWorker, KeptTask;
    BelowOnce(c.passed, n + 1);
    assert HostAt(q, w, c).workers == h.workers;
    SameHost(h, HostAt(q, w, c), q, w, log, n + 1, operation, rc);
  }

  /** What the answers alone decide: a delivered run is complete and accepted, a timeout leaves a stop
      record that is accepted exactly if the drained segment asks for no review, a rejected run that is
      not clean is never accepted, and a failed first admission is the failed gate. */
  ghost predicate Families(q: Query, w: World, v: View, trace: Trace, rc: Rc)
    requires v.Valid()
  {
    && (rc == OK ==> Normal(v, q, 10) && Accepts(v, q))
    && (TimeoutFamily(q, w) ==> v.p[10].Some? && (Accepts(v, q) <==> !AsksReview(w.drainTask)))
    && (RejectedFamily(q, w) ==> v.p[8].Some? && (!FinalClean(w) ==> !Accepts(v, q)))
    && (FirstGateFails(q, w) ==> trace.gateFailed && trace.failedGate == 1)
    && (TimesOut(q, w) ==> !trace.gateFailed && rc != OK && v.p[8].None?)
  }

  /** Everything that is promised of a run's end. */
  ghost predicate Outcome(q: Query, w: World, log: seq<Write>, trace: Trace, attempts: seq<nat>, rc: Rc) {
    && Owned(log) && Agrees(log, q, w) && TraceOk(trace) && NoneTwice(attempts)
    && Ending(q, w, ViewOf(log).p, trace, attempts, rc == OK)
    && (0 !in trace.acknowledged ==> |log| <= 1 && (log != [] ==> w.manifest.Lost?))
    && (0 in trace.acknowledged ==> log != [])
    && Families(q, w, ViewOf(log), trace, rc)
    && Answering(w) && Says(q, w, RunCourse(q, w), log, trace, rc)
  }

  /** What the forward path leaves. */
  ghost predicate Forwarded(h: Host, q: Query, w: World, c: Course, rc: Rc) {
    && Went(h, rc, q, w, c) && NamesOk(q.names) && WorldOk(w, q)
    && (if rc == OK then Good(h, q, w, 10) && w.decision == 1 else Unreserved(h, q, w) || Halted(h, q, w))
    && (rc == OK <==> Smooth(q, w)) && (0 in h.trace.acknowledged <==> ReserveGood(q, w))
    && (FirstGateFails(q, w) ==> h.trace.gateFailed && h.trace.failedGate == 1)
    && (TimesOut(q, w) ==>
          rc != OK && StoppedAt(h, q, w, 6) && h.task == Some(ExecuteTask(q, w)) && h.phase == Execution)
    && (RejectedFamily(q, w) ==> rc != OK && StoppedAt(h, q, w, 9))
  }

  lemma NoFamilyStops(h: Host, q: Query, w: World, rc: Rc)
    requires Answering(w) && Forwarded(h, q, w, RunCourse(q, w), rc)
    ensures rc == OK || 0 !in h.trace.acknowledged || h.trace.gateFailed ==>
      !TimesOut(q, w) && !TimeoutFamily(q, w) && !RejectedFamily(q, w)
    ensures TimesOut(q, w) || RejectedFamily(q, w) ==> !FirstGateFails(q, w)
  {
    hide Operational, Went, Answering, Smooth, ReserveGood, WorldOk, NamesOk, Good, Unreserved, Halted,
         FirstGateFails, ReachesExecute, PendingGood, ReviewGood, RejectedGood, AuditsAnswered, ObservationValid,
         RunCourse, StoppedAt;
    if TimesOut(q, w) { StoppedTrace(h, q, w, 6); }
    if RejectedFamily(q, w) { StoppedTrace(h, q, w, 9); }
  }

  lemma UnauditedOutcome(h: Host, q: Query, w: World, rc: Rc)
    requires Answering(w) && Forwarded(h, q, w, RunCourse(q, w), rc) && (rc == OK || 0 !in h.trace.acknowledged)
    ensures Outcome(q, w, h.log, h.trace, [], rc)
  {
    hide Normal, Operational, GateStopped, Unreserved, TraceOk, Agrees, Ending, Sound, NamesOk, WorldOk, Smooth,
         ReserveGood, TimesOut, TimeoutFamily, RejectedFamily, FirstGateFails, Accepts, NoneTwice, StoppedAt,
         Answering, Says, RunCourse, Went, Untailed, FinalClean;
    TraceHolds(h, q, w);
    NoFamilyStops(h, q, w, rc);
    NothingToAudit(h, q, w, rc == OK);
    UnauditedAgrees(h, q, w, rc == OK);
    NothingBehind(h, q, w, rc);
    WorldSizes(q, w);
    SaysNothing(h, q, w, RunCourse(q, w), rc);
    if rc == OK { DeliveredIsAccepted(h.log, q, w); }
  }

  ghost predicate GateLeft(h: Host, log: seq<Write>, attempts: seq<nat>, q: Query, w: World, rc: Rc) {
    && ValidLog(log) && ValidLog(h.log) && (forall i :: 0 <= i < 15 ==> ViewOf(log).p[i] == ViewOf(h.log).p[i])
    && Diagnosed(ViewOf(log).p, w, [], attempts) && DiagnosticIs(ViewOf(log).p, true)
    && 1 <= h.trace.failedGate <= 10 && GateTells(ViewOf(log).p, q, w, h.phase, rc, h.trace.failedGate)
    && GateStopped(h, q, w) && Surviving(log, q, w)
  }

  lemma GateOutcome(h: Host, log: seq<Write>, attempts: seq<nat>, q: Query, w: World, rc: Rc)
    requires rc != OK && 0 in h.trace.acknowledged && h.trace.gateFailed && GateLeft(h, log, attempts, q, w, rc)
    requires Answering(w) && Forwarded(h, q, w, RunCourse(q, w), rc)
    ensures Outcome(q, w, log, h.trace, attempts, rc)
  {
    hide Good, Operational, GateStopped, Unreserved, Surviving, TraceOk, Agrees, Ending, NamesOk, WorldOk, Smooth,
         ReserveGood, TimesOut, TimeoutFamily, RejectedFamily, FirstGateFails, Accepts, NoneTwice, StoppedAt,
         Answering, Says, RunCourse, Went, FinalClean, Diagnosed, GateTells;
    TraceHolds(h, q, w);
    NoFamilyStops(h, q, w, rc);
    GateFailureEnds(h, log, q, w, attempts);
    SurvivingAgrees(log, q, w);
    WorldSizes(q, w);
    SaysGate(h, log, q, w, RunCourse(q, w), rc);
  }

  /** What the operational audit leaves. */
  ghost predicate AuditLeft(h: Host, log: seq<Write>, attempts: seq<nat>, q: Query, w: World, operation: Rc, rc: Rc) {
    && ValidLog(h.log) && ValidLog(log) && |h.workers| == 2 && Answering(w) && AllEnded(Drained(h, w))
    && (AuditsAnswered(w) && AllObservable(Drained(h, w), q.names) ==> ViewOf(log).p[10].Some?)
    && (AuditsAnswered(w) ==> ViewOf(log).p[10].Some? || RowSkipped(ViewOf(log).p, attempts))
    && (w.stop.Refused? ==>
          ViewOf(log).p[10].None? && (ViewOf(log).p[15].Some? <==> FailureAnswered(w) && !w.failure.Refused?))
    && NormalCount(ViewOf(h.log).p) <= 10
    && StopTells(log, q, w, Drained(h, w), NormalCount(ViewOf(h.log).p) + 1, operation, rc)
    && Closed(log, q, w, ViewOf(h.log).p, attempts)
  }

  lemma StopOutcome(h: Host, log: seq<Write>, attempts: seq<nat>, q: Query, w: World, operation: Rc, rc: Rc)
    requires operation != OK && rc != OK && 0 in h.trace.acknowledged && !h.trace.gateFailed
    requires AuditLeft(h, log, attempts, q, w, operation, rc)
    requires Answering(w) && Forwarded(h, q, w, RunCourse(q, w), operation)
    ensures Outcome(q, w, log, h.trace, attempts, rc)
  {
    hide Good, Operational, GateStopped, Unreserved, Surviving, TraceOk, Agrees, Ending, Closed, NamesOk, WorldOk,
         Smooth, ReserveGood, AllEnded, AllObservable, RowSkipped, FailureAnswered, Accepts, NoneTwice, StoppedAt,
         Answering, Says, RunCourse, Went, FinalClean, StopTells, Drained, NormalCount, Families;
    TraceHolds(h, q, w);
    StopEnds(h, log, q, w, attempts);
    ClosedKeeps(log, q, w, ViewOf(h.log).p, attempts);
    SurvivingAgrees(log, q, w);
    StopFamilies(h, log, attempts, q, w, operation, rc);
    CountedTrace(h, q, w);
    WorldSizes(q, w);
    SaysStop(h, log, q, w, RunCourse(q, w), NormalCount(ViewOf(h.log).p), operation, rc);
  }

  lemma CountedTrace(h: Host, q: Query, w: World)
    requires Operational(h, q, w)
    ensures ValidLog(h.log) && h.trace.acknowledged == Below(NormalCount(ViewOf(h.log).p) + 1)
  {
    hide Sound, Table, SegmentSeen, NormalCount;
  }

  lemma StopFamilies(h: Host, log: seq<Write>, attempts: seq<nat>, q: Query, w: World, operation: Rc, rc: Rc)
    requires ValidLog(log) && Owned(log) && Agrees(log, q, w) && log != []
    requires operation != OK && rc != OK && 0 in h.trace.acknowledged && !h.trace.gateFailed
    requires AuditLeft(h, log, attempts, q, w, operation, rc)
    requires Answering(w) && Forwarded(h, q, w, RunCourse(q, w), operation)
    ensures Families(q, w, ViewOf(log), h.trace, rc)
  {
    hide Good, Operational, GateStopped, Unreserved, Surviving, Agrees, Closed, NamesOk, Smooth, ReserveGood,
         ReachesExecute, PendingGood, ReviewGood, RejectedGood, Admitted, Accepts, AllObservable, AllEnded,
         FinalClean, LateApproval, NoneTwice, StoppedAt, ExecuteTask, AuditsAnswered, ObservationValid, Drained, Went,
         RunCourse, WorldOk;
    ClosedKeeps(log, q, w, ViewOf(h.log).p, attempts);
    FamiliesAreJudged(log, q, w);
    if TimesOut(q, w) { StoppedHost(h, q, w); }
    if TimeoutFamily(q, w) { TimeoutStops(q, w, h, ViewOf(log).p); }
    if RejectedFamily(q, w) { RejectedStops(q, w, h); }
  }

  /** The whole run. Every view that a crash can leave is accepted exactly as `Agreement` says. The end
      is what `Ending` says of the answers: delivery exactly if all are good, ownership exactly by an
      acknowledged manifest, records exactly of the acknowledged gates and perhaps the failed one,
      and for every other end a stop record or a diagnostic as far as the store took it. */
  method RunReport(q: Query, w: World) returns (log: seq<Write>, trace: Trace, attempts: seq<nat>, rc: Rc)
    requires NamesOk(q.names) && WorldOk(w, q)
    ensures ValidLog(log) && Owned(log) && Agrees(log, q, w)
    ensures TraceOk(trace) && NoneTwice(attempts)
    ensures Ending(q, w, ViewOf(log).p, trace, attempts, rc == OK)
    ensures 0 !in trace.acknowledged ==> |log| <= 1 && (log != [] ==> w.manifest.Lost?)
    ensures 0 in trace.acknowledged ==> log != []
    ensures Families(q, w, ViewOf(log), trace, rc)
    ensures Answering(w) && Says(q, w, RunCourse(q, w), log, trace, rc)
  {
    hide Normal, Good, Operational, GateStopped, Unreserved, Surviving, TraceOk, Agrees, Ending, Closed, NamesOk,
         WorldOk, Smooth, ReserveGood, Admitted, AllObservable, AllEnded, AuditsAnswered, NoneTwice, StoppedAt,
         Drained, Families, Says, Answering, RunCourse, Went, StopTells, GateTells, RowSkipped, Diagnosed,
         FirstGateFails, ExecuteTask;
    var h;
    h, rc := Forward(q, w);
    WorldAnswers(q, w);
    WorldSizes(q, w);
    assert Forwarded(h, q, w, RunCourse(q, w), rc);
    hide ReachesExecute, PendingGood, ReviewGood, RejectedGood, Forwarded;
    log, trace, attempts := h.log, h.trace, [];
    TraceHolds(h, q, w);
    if rc == OK || 0 !in trace.acknowledged {
      UnauditedOutcome(h, q, w, rc);
    } else if trace.gateFailed {
      log, attempts := GateFailureAudit(q, w, h, rc);
      GateStoppedRecords(h, q, w);
      GateOutcome(h, log, attempts, q, w, rc);
    } else {
      ghost var operation := rc;
      log, attempts, rc := OperationalAudit(q, w, h, rc);
      ClosedKeeps(log, q, w, ViewOf(h.log).p, attempts);
      assert AuditLeft(h, log, attempts, q, w, operation, rc);
      hide AuditLeft;
      StopOutcome(h, log, attempts, q, w, operation, rc);
    }
  }
}
