/** What a run does after its first error: drain every task, then write either a gate
    failure or the cleanup observations with a stop record, and a failure of those. */
module ReportAudit {
  import opened Collections
  import opened ReportKeys
  import opened ReportRecords
  import opened ReportInspector
  import opened ReportWriter

  /** The cleanup trace: acknowledged cleanup rows, and the failed cleanup gate counted from one. */
  datatype CleanupTrace = CleanupTrace(acknowledged: set<nat>, failedGate: nat)

  /** The audit so far; `attempts` are the slots a create was issued for. */
  datatype Audit = Audit(log: seq<Write>, cleanup: CleanupTrace, entries: seq<StopEntry>, attempts: seq<nat>)

  // ----- Records that follow the normal ones -----

  /** Slots from ten on: nothing but the record itself and its own role check changes. */
  lemma RoutesStay(p: Slots, q: Query, s: nat, r: Record)
    requires RoutesOk(p, q) && 10 <= s < 16
    requires 11 <= s < 15 ==> RouteSlotOk(p[s := Some(r)], q, s - 11)
    ensures RoutesOk(p[s := Some(r)], q)
  {
    var p' := p[s := Some(r)];
    forall k | 0 <= k < 4
      ensures RouteSlotOk(p', q, k)
    {
      assert RouteSlotOk(p, q, k);
    }
  }

  lemma ChainStays(p: Slots, q: Query, s: nat, r: Record)
    requires ChainOk(p, q) && 10 <= s < 16
    requires s == 14 ==> CleanupSegmentOk(p[s := Some(r)])
    ensures ChainOk(p[s := Some(r)], q)
  {
    var p' := p[s := Some(r)];
    hide FanInOk, AggregateFinalOk, PendingOk, ReviewOk, ExecuteFinalOk, ReadyOk;
    EarlyChain(p, p', q);
    LateChain(p, p', q);
    assert s != 14 ==> CleanupSegmentOk(p');
  }

  lemma EarlyChain(p: Slots, p': Slots, q: Query)
    requires FanInOk(p, q) && AggregateFinalOk(p, q) && PendingOk(p, q) && forall i :: 0 <= i < 10 ==> p'[i] == p[i]
    ensures FanInOk(p', q) && AggregateFinalOk(p', q) && PendingOk(p', q)
  {
    hide ObsOk;
  }

  lemma LateChain(p: Slots, p': Slots, q: Query)
    requires ReviewOk(p) && ExecuteFinalOk(p, q) && ReadyOk(p, q) && forall i :: 0 <= i < 10 ==> p'[i] == p[i]
    ensures ReviewOk(p') && ExecuteFinalOk(p', q) && ReadyOk(p', q)
  {
    hide ObsOk;
  }

  lemma LoadedStays(m: Manifest, p: Slots, n: Names, s: nat, r: Record)
    requires LoadedOk(m, p, n) && |m.phaseIds| == 16 && 10 <= s < 16 && Loads(n, s, r)
    ensures LoadedOk(m, p[s := Some(r)], n)
  {
  }

  lemma RecordsStay(v: View, q: Query, w: World, s: nat, r: Record)
    requires RecordsOk(v, q) && v.manifest.value.manifest == ManifestOf(q, w)
    requires 10 <= s < 16 && Loads(q.names, s, r)
    requires 11 <= s < 15 ==> RouteSlotOk(v.p[s := Some(r)], q, s - 11)
    requires s == 14 ==> CleanupSegmentOk(v.p[s := Some(r)])
    ensures RecordsOk(Apply(v, Write(Some(s), r)), q)
  {
    hide LoadedOk, RoutesOk, ChainOk, Loads, RouteSlotOk, CleanupSegmentOk;
    LoadedStays(v.manifest.value.manifest, v.p, q.names, s, r);
    RoutesStay(v.p, q, s, r);
    ChainStays(v.p, q, s, r);
  }

  /** The normal records of `base`, exactly these cleanup rows, and no failure record. */
  ghost predicate Shape(p: Slots, base: Slots, n: nat, rows: set<nat>) {
    && n <= 10 && p[15].None?
    && (forall i :: 0 <= i < 10 ==> p[i] == base[i] && (p[i].Some? <==> i < n))
    && (forall i :: 11 <= i < 15 ==> (p[i].Some? <==> i - 11 in rows))
  }

  ghost predicate Rows(v: View, q: Query, base: Slots, n: nat, rows: set<nat>) {
    RecordsOk(v, q) && Shape(v.p, base, n, rows) && v.p[10].None?
  }

  ghost predicate FinalAgrees(p: Slots, w: World) {
    FinalStatusOk(p) <==> (p[8].None? || FinalClean(w))
  }

  ghost predicate Surviving(log: seq<Write>, q: Query, w: World) {
    && Owned(log) && log != [] && Survives(log, VerdictOf(q, w)) && w.deadline <= MAX_EXACT
    && ViewOf(log).manifest == Some(ManifestRecord(ManifestOf(q, w)))
  }

  ghost predicate Audited(log: seq<Write>, q: Query, w: World, base: Slots, n: nat, rows: set<nat>) {
    Surviving(log, q, w) && Rows(ViewOf(log), q, base, n, rows) && FinalAgrees(base, w)
  }

  /** What the normal records say is not affected by what follows them. */
  lemma ToldStays(log: seq<Write>, q: Query, w: World, s: nat, r: Record)
    requires Surviving(log, q, w) && 10 <= s < 16
    ensures Told(ViewOf(log).p[s := Some(r)], q, w)
  {
    hide Verdict, RecordTells, Survives;
    WholeLog(log, q, w);
    WholeTold(ViewOf(log), q, w);
  }

  lemma AuditBegins(log: seq<Write>, q: Query, w: World, n: nat)
    requires Sound(log, q, w, n)
    ensures Audited(log, q, w, ViewOf(log).p, n, {})
  {
    WholeLog(log, q, w);
  }

  lemma RowsVerdict(v: View, q: Query, w: World, base: Slots, n: nat, rows: set<nat>)
    requires Rows(v, q, base, n, rows) && FinalAgrees(base, w) && w.deadline <= MAX_EXACT
    requires v.manifest.value.manifest == ManifestOf(q, w) && Told(v.p, q, w)
    ensures VerdictOf(q, w)(v)
  {
    hide LoadedOk, RoutesOk, ChainOk, Told;
    assert ReviewAt(v.p) == ReviewAt(base) && v.p[8] == base[8];
  }

  ghost predicate RowFits(o: Observation, base: Slots, q: Query, r: nat)
    requires r < 4
  {
    && ObservationValid(o, q.names.keys[11 + r]) && o.status >= COMPLETED
    && ObsOk(o, IntentAt(base, IntentSlot(r)), q, RoleAt(r))
    && o.resumes <= 1
    && (o.resumes != 0 ==> ReviewAt(base).Some? && o.executionId == ReviewAt(base).value.executionId)
  }

  /** The role check of the new row looks at the normal records only. */
  lemma RowRouteOk(p: Slots, q: Query, base: Slots, n: nat, rows: set<nat>, r: nat, o: Observation)
    requires RoutesOk(p, q) && Shape(p, base, n, rows) && r < 4 && RowFits(o, base, q, r)
    ensures RouteSlotOk(p[11 + r := Some(ObservationRecord(o))], q, r)
    ensures r == 3 ==> CleanupSegmentOk(p[14 := Some(ObservationRecord(o))])
  {
    var p' := p[11 + r := Some(ObservationRecord(o))];
    assert RouteSlotOk(p, q, r);
    assert IntentAt(p', IntentSlot(r)) == IntentAt(base, IntentSlot(r)) && ReviewAt(p') == ReviewAt(base);
    hide RoutesOk, ObservationValid, ObsOk, RouteOk;
  }

  lemma RowStands(v: View, q: Query, w: World, base: Slots, n: nat, rows: set<nat>, r: nat, o: Observation)
    requires Rows(v, q, base, n, rows) && v.manifest.value.manifest == ManifestOf(q, w)
    requires r < 4 && r !in rows && RowFits(o, base, q, r)
    ensures Rows(Apply(v, Write(Some(11 + r), ObservationRecord(o))), q, base, n, rows + {r})
  {
    hide LoadedOk, RoutesOk, ChainOk, RouteSlotOk, CleanupSegmentOk, ObsOk;
    RowRouteOk(v.p, q, base, n, rows, r, o);
    RecordsStay(v, q, w, 11 + r, ObservationRecord(o));
  }

  lemma RowLands(log: seq<Write>, q: Query, w: World, base: Slots, n: nat, rows: set<nat>, r: nat, o: Observation)
    requires Audited(log, q, w, base, n, rows) && r < 4 && r !in rows && RowFits(o, base, q, r)
    ensures Audited(log + [Write(Some(11 + r), ObservationRecord(o))], q, w, base, n, rows + {r})
    ensures ValidLog(log) && ValidLog(log + [Write(Some(11 + r), ObservationRecord(o))])
    ensures ViewOf(log + [Write(Some(11 + r), ObservationRecord(o))]).p
         == ViewOf(log).p[11 + r := Some(ObservationRecord(o))]
  {
    hide RecordsOk, Survives, FinalAgrees, RowFits, Told;
    var e := Write(Some(11 + r), ObservationRecord(o));
    ToldStays(log, q, w, 11 + r, ObservationRecord(o));
    RowStands(ViewOf(log), q, w, base, n, rows, r, o);
    RowsVerdict(Apply(ViewOf(log), e), q, w, base, n, rows + {r});
    LogGrows(log, e, VerdictOf(q, w));
  }

  // ----- The stop and failure records -----

  lemma {:induction false} CountStays(p: Slots, p': Slots, from: nat)
    requires from <= 10 && forall i :: 0 <= i < 10 ==> p'[i] == p[i]
    ensures NormalCount(p', from) == NormalCount(p, from)
    decreases 10 - from
  {
    if from < 10 && p[from].Some? { CountStays(p, p', from + 1); }
  }

  lemma EntryStays(e: StopEntry, phase: nat, p: Slots, n: Names, slot: nat, r: Record)
    requires slot == 10 || slot == 15
    ensures EntryOk(e, phase, p[slot := Some(r)], n) <==> EntryOk(e, phase, p, n)
    ensures EntryClear(e, p[slot := Some(r)], n) <==> EntryClear(e, p, n)
  {
    assert !e.role.OtherRole? ==> ObsAt(p[slot := Some(r)], EntrySlot(e, n)) == ObsAt(p, EntrySlot(e, n));
  }

  lemma StopStays(s: Stop, p: Slots, m: Manifest, q: Query, slot: nat, r: Record)
    requires slot == 10 || slot == 15
    ensures StopOk(s, p[slot := Some(r)], m, q) <==> StopOk(s, p, m, q)
    ensures StopClear(s, p[slot := Some(r)], q.names) <==> StopClear(s, p, q.names)
  {
    hide GateList, HeaderOk, EntryOk, EntryClear;
    var p' := p[slot := Some(r)];
    CountStays(p, p', 0);
    var phase := PhaseIndex(s.phase);
    forall i | 0 <= i < |s.tasks|
      ensures EntryOk(s.tasks[i], phase, p', q.names) <==> EntryOk(s.tasks[i], phase, p, q.names)
      ensures EntryClear(s.tasks[i], p', q.names) <==> EntryClear(s.tasks[i], p, q.names)
    {
      EntryStays(s.tasks[i], phase, p, q.names, slot, r);
    }
  }

  lemma RowsOkStays(f: Failure, p: Slots, expected: seq<nat>, gate: nat, r: Record)
    requires f.CleanupFailure? && |f.cleaned| <= |expected|
    requires forall i :: 0 <= i < |expected| ==> expected[i] < 4
    ensures CleanupRowsOk(f, p[15 := Some(r)], expected, gate) <==> CleanupRowsOk(f, p, expected, gate)
  {
    var p' := p[15 := Some(r)];
    assert forall k :: 0 <= k < 15 ==> p'[k] == p[k];
  }

  lemma FailureStays(f: Failure, p: Slots, m: Manifest, q: Query, r: Record)
    ensures FailureOk(f, p[15 := Some(r)], m, q) <==> FailureOk(f, p, m, q)
  {
    hide GateList, HeaderOk, CleanupList, AttemptOk;
    var p' := p[15 := Some(r)];
    CountStays(p, p', 0);
    assert forall k :: 0 <= k < 15 ==> p'[k] == p[k];
    if f.GateFailure? {
      assert NoCleanup(p') <==> NoCleanup(p);
    } else {
      var expected := Expected(PhaseIndex(f.phase), NormalCount(p));
      if |f.cleaned| <= |expected| { RowsOkStays(f, p, expected, AttemptedGate(f, q.names), r); }
    }
  }

  lemma FailureVerdict(v: View, q: Query, w: World, f: Failure)
    requires Verdict(v, q, w) && v.p[15].None? && FailureOk(f, v.p, ManifestOf(q, w), q)
    ensures VerdictOf(q, w)(Apply(v, Write(Some(15), FailureRecord(f))))
  {
    hide StopOk, StopClear, FailureOk, LoadedOk, RoutesOk, ChainOk, RecordTells;
    var r := FailureRecord(f);
    RecordsStay(v, q, w, 15, r);
    if v.p[10].Some? && v.p[10].value.StopRecord? { StopStays(v.p[10].value.stop, v.p, ManifestOf(q, w), q, 15, r); }
    FailureStays(f, v.p, ManifestOf(q, w), q, r);
  }

  lemma FailureLands(log: seq<Write>, q: Query, w: World, f: Failure)
    requires Surviving(log, q, w) && ViewOf(log).p[15].None? && FailureOk(f, ViewOf(log).p, ManifestOf(q, w), q)
    ensures Surviving(log + [Write(Some(15), FailureRecord(f))], q, w)
    ensures ViewOf(log + [Write(Some(15), FailureRecord(f))]) == Apply(ViewOf(log), Write(Some(15), FailureRecord(f)))
  {
    hide Verdict, FailureOk;
    WholeLog(log, q, w);
    FailureVerdict(ViewOf(log), q, w, f);
    LogGrows(log, Write(Some(15), FailureRecord(f)), VerdictOf(q, w));
  }

  /** The stop record is there as well. */
  ghost predicate Stopped(log: seq<Write>, q: Query, w: World, base: Slots, n: nat, rows: set<nat>, s: Stop) {
    && Surviving(log, q, w) && Shape(ViewOf(log).p, base, n, rows) && ViewOf(log).p[10] == Some(StopRecord(s))
  }

  lemma StopVerdict(v: View, q: Query, w: World, base: Slots, n: nat, rows: set<nat>, s: Stop)
    requires Rows(v, q, base, n, rows) && FinalAgrees(base, w) && w.deadline <= MAX_EXACT
    requires v.manifest.value.manifest == ManifestOf(q, w) && StopOk(s, v.p, ManifestOf(q, w), q)
    requires StopClear(s, v.p, q.names) <==> !LateApproval(base, w)
    requires Told(v.p, q, w)
    ensures VerdictOf(q, w)(Apply(v, Write(Some(10), StopRecord(s))))
  {
    hide StopOk, StopClear, LoadedOk, RoutesOk, ChainOk, RecordTells;
    RecordsStay(v, q, w, 10, StopRecord(s));
    StopStays(s, v.p, ManifestOf(q, w), q, 10, StopRecord(s));
    assert ReviewAt(v.p) == ReviewAt(base) && v.p[8] == base[8];
  }

  lemma StopLands(log: seq<Write>, q: Query, w: World, base: Slots, n: nat, rows: set<nat>, s: Stop)
    requires Audited(log, q, w, base, n, rows) && StopOk(s, ViewOf(log).p, ManifestOf(q, w), q)
    requires StopClear(s, ViewOf(log).p, q.names) <==> !LateApproval(base, w)
    ensures Stopped(log + [Write(Some(10), StopRecord(s))], q, w, base, n, rows, s)
  {
    hide StopOk, StopClear, RecordsOk, Told, Verdict;
    WholeLog(log, q, w);
    WholeTold(ViewOf(log), q, w);
    StopVerdict(ViewOf(log), q, w, base, n, rows, s);
    LogGrows(log, Write(Some(10), StopRecord(s)), VerdictOf(q, w));
  }
}
