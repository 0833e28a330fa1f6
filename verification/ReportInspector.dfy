/** The read-only inspection of a report after the fact. Each predicate states what one
    part of the inspection demands; the methods are the loops that decide it. */
module ReportInspector {
  import opened Collections
  import opened ReportKeys
  import opened ReportRecords
  import opened RouterLoaders

  /** Host bindings: which endpoint of which router (true for the tool-loop router) has a store. */
  type Bindings = set<(string, bool)>

  datatype Query = Query(names: Names, parent: string, bindings: Bindings)

  function RoleAt(r: nat): Role {
    if r == 0 then WorkerA else if r == 1 then WorkerB else if r == 2 then Aggregate else Execute
  }

  /** The slot of a role's admission intent, whose key is also the task's thread id. */
  function IntentSlot(r: nat): nat {
    if r == 0 then 0 else if r == 1 then 1 else if r == 2 then 3 else 5
  }

  function MinNormal(phase: nat): nat {
    if phase == 0 then 0 else if phase == 1 then 3 else if phase == 2 then 5 else if phase == 3 then 7
    else if phase == 4 then 8 else 10
  }

  function MaxNormal(phase: nat): nat {
    if phase == 0 then 3 else if phase == 1 then 5 else if phase == 2 then 6 else if phase == 3 then 9
    else if phase == 4 then 9 else 10
  }

  function GatePhase(gate: nat): Phase {
    if gate == 0 then Manifesting else if gate <= 3 then Workers else if gate <= 5 then Aggregation
    else if gate == 6 then Execution else if gate <= 8 then Approval else if gate == 9 then Delivery
    else DeliveryAudit
  }

  function RoleIndex(r: Role): nat {
    match r case WorkerA => 0 case WorkerB => 1 case Aggregate => 2 case Execute => 3 case OtherRole => 4
  }

  function PhaseIndex(ph: Phase): nat {
    match ph
    case Workers => 0 case Aggregation => 1 case Execution => 2 case Approval => 3
    case Delivery => 4 case DeliveryAudit => 5 case _ => 6
  }

  type Slots = p: seq<Option<Record>> | |p| == 16 witness EMPTY_VIEW.p

  // ----- Loading -----

  /** The typed loader of slot i accepts the stored value. Ready, stop and failure
      records are checked field by field further on. */
  predicate Loads(n: Names, i: nat, r: Record)
    requires i < 16
  {
    match CollectionOf(i)
    case Intents => r.IntentRecord? && IntentValid(r.intent, n.keys[i])
    case Observations => r.ObservationRecord? && ObservationValid(r.obs, n.keys[i])
    case Groups => r.GroupRecord? && GroupValid(r.group, n.keys[i])
    case Reviews => r.ReviewRecord? && ReviewValid(r.review, n.keys[i])
    case Deliveries => r.ReadyRecord?
    case Stops => r.StopRecord?
    case Failures => r.FailureRecord?
    case Manifests => false
  }

  predicate AllLoad(n: Names, p: Slots) {
    forall i :: 0 <= i < 16 && p[i].Some? ==> Loads(n, i, p[i].value)
  }

  /** The ten normal records form a prefix of the protocol. */
  predicate PrefixOk(p: Slots) {
    forall i :: 1 <= i < 10 && p[i].Some? ==> p[i - 1].Some?
  }

  /** Older manifests reserved ten or fifteen keys; later keys must have been reserved. */
  predicate ReservedOk(m: Manifest, p: Slots) {
    && (forall i :: 10 <= i < 16 && p[i].Some? ==> |m.phaseIds| >= 15)
    && (p[15].Some? ==> |m.phaseIds| >= 16)
  }

  // ----- Manifest -----

  predicate HeaderOk(h: Header, q: Query, schema: int, semantics: Semantics) {
    && h.schema == schema && h.semantics == semantics && h.reportId == q.names.id && h.parentRunId == q.parent
    && h.clock == OriginMonotonic
  }

  function Keys(members: seq<(string, string)>): seq<string> {
    seq(|members|, i requires 0 <= i < |members| => members[i].0)
  }

  function Find(keys: seq<string>, key: string, from: nat := 0): (j: nat)
    requires from <= |keys|
    ensures from <= j <= |keys|
    ensures j < |keys| ==> keys[j] == key
    ensures forall i :: from <= i < j ==> keys[i] != key
    decreases |keys| - from
  {
    if from == |keys| || keys[from] == key then from else Find(keys, key, from + 1)
  }

  /** The key under which a suffix is reserved. */
  function KeyFor(n: Names, suffix: string): string {
    n.keys[Find(n.suffixes, suffix)]
  }

  /** An object has exactly the expected members: each once, in any order. */
  ghost predicate SameKeys(keys: seq<string>, expected: seq<string>) {
    && |keys| == |expected|
    && (forall i :: 0 <= i < |keys| ==> keys[i] in expected)
    && (forall i, j :: 0 <= i < j < |keys| ==> keys[i] != keys[j])
  }

  ghost predicate MembersOk(n: Names, members: seq<(string, string)>, expected: seq<string>) {
    && SameKeys(Keys(members), expected)
    && forall i :: 0 <= i < |members| ==> members[i].1 == KeyFor(n, members[i].0)
  }

  ghost predicate PhaseIdsOk(n: Names, members: seq<(string, string)>) {
    && (|members| == 10 || |members| == 15 || |members| == 16)
    && MembersOk(n, members, n.suffixes[..|members|])
  }

  ghost predicate ManifestOk(m: Manifest, q: Query) {
    && HeaderOk(m.header, q, 1, ManifestSemantics)
    && 0 <= m.started < m.deadline <= 9007199254740991 && m.deadline - m.started <= 86400000
    && PhaseIdsOk(q.names, m.phaseIds)
  }

  // ----- Routes and observations -----

  predicate RouteOk(r: Route, q: Query, role: Role) {
    && r.threadId == q.names.keys[IntentSlot(RoleIndex(role))] && r.parentRunId == q.parent
    && r.role == (if role == Aggregate then Plan else Run)
    && r.maxTurns == (if role == Execute then 2 else 0)
    && (r.endpoint, role == Execute) in q.bindings
  }

  function IntentAt(p: Slots, i: nat): Option<Intent>
    requires i < 16
  {
    if p[i].Some? && p[i].value.IntentRecord? then Some(p[i].value.intent) else None
  }

  function ObsAt(p: Slots, i: nat): Option<Observation>
    requires i < 16
  {
    if p[i].Some? && p[i].value.ObservationRecord? then Some(p[i].value.obs) else None
  }

  function ReviewAt(p: Slots): Option<Review> {
    if p[7].Some? && p[7].value.ReviewRecord? then Some(p[7].value.review) else None
  }

  predicate ObsOk(o: Observation, intent: Option<Intent>, q: Query, role: Role) {
    && intent.Some? && RouteOk(o.route, q, role)
    && o.taskId == intent.value.taskId && o.route.endpoint == intent.value.route.endpoint
    && o.route.model == intent.value.route.model && o.route.provider == intent.value.route.provider
    && o.route.role == intent.value.route.role && o.route.threadId == intent.value.route.threadId
    && o.route.parentRunId == intent.value.route.parentRunId
  }

  predicate RouteSlotOk(p: Slots, q: Query, r: nat)
    requires r < 4
  {
    && (p[IntentSlot(r)].Some? ==>
          IntentAt(p, IntentSlot(r)).Some? && RouteOk(IntentAt(p, IntentSlot(r)).value.route, q, RoleAt(r)))
    && (p[11 + r].Some? ==>
          && ObsAt(p, 11 + r).Some?
          && ObsOk(ObsAt(p, 11 + r).value, IntentAt(p, IntentSlot(r)), q, RoleAt(r))
          && ObsAt(p, 11 + r).value.status >= COMPLETED)
  }

  predicate FanInOk(p: Slots, q: Query) {
    p[2].Some? ==>
      && p[2].value.GroupRecord?
      && var g := p[2].value.group;
         && g.groupId == q.names.keys[16] && g.parentRunId == q.parent && g.aggregation && |g.members| == 2
         && ObsOk(g.members[0], IntentAt(p, 0), q, WorkerA) && ObsOk(g.members[1], IntentAt(p, 1), q, WorkerB)
  }

  predicate AggregateFinalOk(p: Slots, q: Query) {
    p[4].Some? ==>
      && ObsAt(p, 4).Some? && ObsOk(ObsAt(p, 4).value, IntentAt(p, 3), q, Aggregate)
      && ObsAt(p, 4).value.status == COMPLETED && ObsAt(p, 4).value.code == 0
  }

  predicate PendingOk(p: Slots, q: Query) {
    p[6].Some? ==>
      && ObsAt(p, 6).Some? && ObsOk(ObsAt(p, 6).value, IntentAt(p, 5), q, Execute)
      && ObsAt(p, 6).value.approvalPending && ObsAt(p, 6).value.resumes == 0
  }

  predicate ReviewOk(p: Slots) {
    p[7].Some? ==>
      && ReviewAt(p).Some? && ObsAt(p, 6).Some? && IntentAt(p, 5).Some?
      && var r, o, i := ReviewAt(p).value, ObsAt(p, 6).value, IntentAt(p, 5).value;
         && r.taskId == o.taskId && r.previousExecutionId == o.executionId
         && o.runId == Some(r.sourceRunId) && o.checkpointId == Some(r.sourceCheckpointId)
         && r.admissionId == Some(i.admissionId) && r.endpoint == i.route.endpoint && r.model == i.route.model
         && r.provider == i.route.provider && r.threadId == i.route.threadId
         && r.parentRunId == i.route.parentRunId
         && r.maxTurns == 2 && r.segment == 1
  }

  predicate ExecuteFinalOk(p: Slots, q: Query) {
    p[8].Some? ==>
      && ObsAt(p, 8).Some? && ObsOk(ObsAt(p, 8).value, IntentAt(p, 5), q, Execute)
      && ReviewAt(p).Some? && ObsAt(p, 8).value.executionId == ReviewAt(p).value.executionId
      && ObsAt(p, 8).value.resumes == 1 && !ObsAt(p, 8).value.approvalPending
  }

  /** An approved segment must have completed, any other one must have been interrupted. */
  predicate FinalStatusOk(p: Slots) {
    p[8].Some? ==>
      && ObsAt(p, 8).Some? && ObsAt(p, 8).value.code == 0
      && ObsAt(p, 8).value.status ==
           (if ReviewAt(p).Some? && ReviewAt(p).value.decision == Approve then COMPLETED else INTERRUPTED)
  }

  predicate CleanupSegmentOk(p: Slots) {
    p[14].Some? && ObsAt(p, 14).Some? ==>
      && ObsAt(p, 14).value.resumes <= 1
      && (ObsAt(p, 14).value.resumes != 0 ==>
            ReviewAt(p).Some? && ObsAt(p, 14).value.executionId == ReviewAt(p).value.executionId)
  }

  predicate ReadyOk(p: Slots, q: Query) {
    p[9].Some? ==>
      && p[9].value.ReadyRecord? && ReviewAt(p).Some? && ObsAt(p, 8).Some?
      && var r, o := p[9].value.ready, ObsAt(p, 8).value;
         && r.schema == 1 && r.reportId == q.names.id && r.semantics == ReadySemantics
         && r.verification == ReferenceIdentityOnly
         && ReviewAt(p).value.decision == Approve
         && o.status == COMPLETED && o.runtimeStatus == Some(RunCompleted)
         && r.terminalObservationId == q.names.keys[8]
         && r.taskId == o.taskId && r.executionId == o.executionId && o.runId == Some(r.runId)
  }

  // ----- Stop, cleanup failure and gate failure -----

  /** Number of leading normal records. */
  function NormalCount(p: Slots, from: nat := 0): (n: nat)
    requires from <= 10
    ensures from <= n <= 10
    ensures forall i :: from <= i < n ==> p[i].Some?
    ensures n < 10 ==> p[n].None?
    decreases 10 - from
  {
    if from < 10 && p[from].Some? then NormalCount(p, from + 1) else from
  }

  function GateName(n: Names, g: nat): string
    requires g < 11
  {
    if g == 0 then n.id else n.keys[g - 1]
  }

  /** The ids of the first gates, in protocol order. */
  function GateList(n: Names, count: nat): seq<string>
    requires count <= 11
  {
    seq(count, g requires 0 <= g < count => GateName(n, g))
  }

  function EntrySlot(e: StopEntry, n: Names): nat
    requires !e.role.OtherRole?
    ensures EntrySlot(e, n) < 16
  {
    if !e.taken then 11 + RoleIndex(e.role)
    else if e.role == Aggregate then 4
    else if e.observationId == n.keys[6] then 6
    else 8
  }

  predicate EntryOk(e: StopEntry, phase: nat, p: Slots, n: Names) {
    && !e.role.OtherRole?
    && (e.taken ==> e.role in {Aggregate, Execute})
    && (phase == 0 ==> e.role in {WorkerA, WorkerB}) && (phase == 1 ==> e.role == Aggregate)
    && (phase >= 2 ==> e.role == Execute)
    && var o := ObsAt(p, EntrySlot(e, n));
       && o.Some?
       && e.boundary == (if e.taken then BeforeTransfer else AfterDrain)
       && e.observationId == n.keys[EntrySlot(e, n)]
       && Text(e.taskId, 64) && Text(e.executionId, 64) && Text(e.threadId, 64)
       && e.taskId == o.value.taskId && e.executionId == o.value.executionId
       && e.threadId == o.value.route.threadId
       && e.status >= COMPLETED && e.status == o.value.status && e.code == o.value.code
       && e.unresponsive == o.value.unresponsive
  }

  /** A stop must leave no approval pending, in the entry or in its own observation. */
  predicate EntryClear(e: StopEntry, p: Slots, n: Names) {
    && !e.approvalPending
    && (!e.taken && !e.role.OtherRole? && ObsAt(p, EntrySlot(e, n)).Some? ==>
          !ObsAt(p, EntrySlot(e, n)).value.approvalPending)
  }

  predicate ClockOk(observed: int, m: Manifest) {
    m.started <= observed <= 9007199254740991
  }

  predicate CodeOk(code: int) { -2147483648 <= code <= 2147483647 && code != 0 }

  predicate RangeOk(phase: nat, normal: nat) {
    phase < 6 && MinNormal(phase) <= normal <= MaxNormal(phase)
  }

  predicate EntriesOk(s: Stop, phase: nat, p: Slots, n: Names) {
    && |s.tasks| <= 2
    && (forall i :: 0 <= i < |s.tasks| ==> EntryOk(s.tasks[i], phase, p, n))
    && (forall i, j :: 0 <= i < j < |s.tasks| ==> s.tasks[i].role != s.tasks[j].role)
  }

  predicate StopOk(s: Stop, p: Slots, m: Manifest, q: Query) {
    var phase, normal := PhaseIndex(s.phase), NormalCount(p);
    && HeaderOk(s.header, q, 1, StopSemantics)
    && CodeOk(s.code) && ClockOk(s.observed, m)
    && RangeOk(phase, normal)
    && s.gates == GateList(q.names, normal + 1)
    && EntriesOk(s, phase, p, q.names)
  }

  predicate StopClear(s: Stop, p: Slots, n: Names) {
    forall i :: 0 <= i < |s.tasks| ==> EntryClear(s.tasks[i], p, n)
  }

  /** The cleanup observations that a stop in this phase after this many records must write. */
  function Expected(phase: nat, normal: nat): (e: seq<nat>)
    ensures |e| <= 2 && forall i :: 0 <= i < |e| ==> e[i] < 4
  {
    if phase == 0 then (if normal > 0 then [0] else []) + (if normal > 1 then [1] else [])
    else if phase == 1 && normal == 4 then [2]
    else if (phase == 2 && normal == 6) || (phase == 3 && normal >= 8) || (phase == 4 && normal == 8) then [3]
    else []
  }

  function CleanupKey(n: Names, g: nat): string
    requires g < 5
  {
    if g == 4 then n.keys[10] else n.keys[11 + g]
  }

  function CleanupList(n: Names, roles: seq<nat>): seq<string>
    requires forall i :: 0 <= i < |roles| ==> roles[i] < 4
  {
    seq(|roles|, i requires 0 <= i < |roles| => CleanupKey(n, roles[i]))
  }

  /** The attempted cleanup gate: index 0..4, or 5 when the record names no such gate. */
  function AttemptedGate(f: Failure, n: Names, from: nat := 0): (g: nat)
    requires f.CleanupFailure? && from <= 5
    ensures from <= g <= 5
    ensures g < 5 ==> f.gate == Some(CleanupKey(n, g))
    ensures forall i :: from <= i < g ==> f.gate != Some(CleanupKey(n, i))
    decreases 5 - from
  {
    if from == 5 || f.gate == Some(CleanupKey(n, from)) then from else AttemptedGate(f, n, from + 1)
  }

  /** The surviving cleanup rows are the acknowledged ones, plus possibly the failed one. */
  predicate CleanupRowsOk(f: Failure, p: Slots, expected: seq<nat>, gate: nat)
    requires f.CleanupFailure? && |f.cleaned| <= |expected|
    requires forall i :: 0 <= i < |expected| ==> expected[i] < 4
  {
    && (forall i :: 0 <= i < |f.cleaned| ==> p[11 + expected[i]].Some?)
    && (forall r: nat :: r < 4 && p[11 + r].Some? ==>
          (f.gate.Some? && gate == r) || r in expected[..|f.cleaned|])
    && (p[10].Some? ==>
          && f.gate.Some? && gate == 4 && p[10].value.StopRecord?
          && p[10].value.stop.phase == f.phase && p[10].value.stop.code == f.operation
          && p[10].value.stop.observed <= f.observed)
  }

  predicate AttemptOk(f: Failure, expected: seq<nat>, gate: nat)
    requires f.CleanupFailure? && |f.cleaned| <= |expected|
  {
    if f.gate.Some?
    then f.outcome == Unresolved && gate < 5
         && (if gate == 4 then |f.cleaned| == |expected|
             else |f.cleaned| < |expected| && gate == expected[|f.cleaned|])
    else f.outcome == NotAttempted
  }

  predicate CleanupFailureOk(f: Failure, p: Slots, m: Manifest, q: Query)
    requires f.CleanupFailure?
  {
    var phase, normal := PhaseIndex(f.phase), NormalCount(p);
    var expected, gate := Expected(phase, normal), AttemptedGate(f, q.names);
    && HeaderOk(f.header, q, 2, CleanupSemantics)
    && CodeOk(f.gateCode) && CodeOk(f.operation) && ClockOk(f.observed, m)
    && RangeOk(phase, normal) && f.gates == GateList(q.names, normal + 1)
    && (phase == 3 && normal == 9 ==> ReviewAt(p).Some? && ReviewAt(p).value.decision == Reject)
    && |f.cleaned| <= |expected| && f.cleaned == CleanupList(q.names, expected[..|f.cleaned|])
    && AttemptOk(f, expected, gate) && CleanupRowsOk(f, p, expected, gate)
  }

  function FailedGate(f: Failure, n: Names, from: nat := 1): (g: nat)
    requires f.GateFailure? && 1 <= from <= 11
    ensures from <= g <= 11
    ensures g < 11 ==> f.gateId == n.keys[g - 1]
    ensures forall k :: from - 1 <= k < g - 1 ==> f.gateId != n.keys[k]
    decreases 11 - from
  {
    if from == 11 || f.gateId == n.keys[from - 1] then from else FailedGate(f, n, from + 1)
  }

  predicate NoCleanup(p: Slots) {
    forall i :: 10 <= i < 15 ==> p[i].None?
  }

  predicate GateFailureOk(f: Failure, p: Slots, m: Manifest, q: Query)
    requires f.GateFailure?
  {
    var gate, normal := FailedGate(f, q.names), NormalCount(p);
    && HeaderOk(f.header, q, 1, GateSemantics)
    && f.outcome == Unresolved && CodeOk(f.gateCode) && ClockOk(f.observed, m)
    && gate < 11
    && (f.phase == GatePhase(gate) || (gate == 9 && f.phase == Approval))
    && (normal == gate - 1 || normal == gate)
    && f.gates == GateList(q.names, gate)
    && NoCleanup(p)
  }

  predicate FailureOk(f: Failure, p: Slots, m: Manifest, q: Query) {
    if f.CleanupFailure? then CleanupFailureOk(f, p, m, q) else GateFailureOk(f, p, m, q)
  }

  // ----- The verdict -----

  predicate LoadedOk(m: Manifest, p: Slots, n: Names) {
    AllLoad(n, p) && PrefixOk(p) && ReservedOk(m, p)
  }

  predicate RoutesOk(p: Slots, q: Query) {
    forall r :: 0 <= r < 4 ==> RouteSlotOk(p, q, r)
  }

  /** Identities agree along the chain of normal records. */
  predicate ChainOk(p: Slots, q: Query) {
    && FanInOk(p, q) && AggregateFinalOk(p, q) && PendingOk(p, q) && ReviewOk(p)
    && ExecuteFinalOk(p, q) && CleanupSegmentOk(p) && ReadyOk(p, q)
  }

  predicate TailOk(p: Slots, m: Manifest, q: Query) {
    && (p[10].Some? && p[10].value.StopRecord? ==> StopOk(p[10].value.stop, p, m, q))
    && (p[15].Some? && p[15].value.FailureRecord? ==> FailureOk(p[15].value.failure, p, m, q))
  }

  predicate RecordsOk(v: View, q: Query) {
    && v.Valid() && v.manifest.Some? && v.manifest.value.ManifestRecord?
    && LoadedOk(v.manifest.value.manifest, v.p, q.names) && RoutesOk(v.p, q) && ChainOk(v.p, q)
  }

  /** Everything but the manifest itself and the two checks that depend on how a segment ended. */
  predicate Core(v: View, q: Query) {
    RecordsOk(v, q) && TailOk(v.p, v.manifest.value.manifest, q)
  }

  predicate NoApprovalLeft(v: View, n: Names)
    requires v.Valid()
  {
    v.p[10].Some? && v.p[10].value.StopRecord? ==> StopClear(v.p[10].value.stop, v.p, n)
  }

  ghost predicate Accepts(v: View, q: Query) {
    && Core(v, q) && ManifestOk(v.manifest.value.manifest, q)
    && FinalStatusOk(v.p) && NoApprovalLeft(v, q.names)
  }

  // ----- The inspection loops -----

  lemma FindIsExact(expected: seq<string>, a: string, b: string)
    requires Find(expected, a) < |expected|
    ensures a in expected
    ensures Find(expected, a) == Find(expected, b) <==> a == b
  {
  }

  /** The seen-mask loop over an object's members decides exact membership without duplicates. */
  method CheckShape(keys: seq<string>, expected: seq<string>) returns (ok: bool)
    ensures ok <==> |expected| <= 63 && SameKeys(keys, expected)
  {
    var seen: set<nat> := {};
    if |keys| != |expected| || |expected| > 63 { return false; }
    for i := 0 to |keys|
      invariant forall k :: 0 <= k < i ==> Find(expected, keys[k]) < |expected|
      invariant forall j :: j in seen <==> exists k :: 0 <= k < i && Find(expected, keys[k]) == j
      invariant forall k, l :: 0 <= k < l < i ==> keys[k] != keys[l]
    {
      var j := Locate(expected, keys[i]);
      forall k | 0 <= k < i
        ensures keys[k] == keys[i] <==> Find(expected, keys[k]) == j
      {
        FindIsExact(expected, keys[k], keys[i]);
      }
      if j == |expected| || j in seen { return false; }
      seen := seen + {j};
    }
    forall k | 0 <= k < |keys|
      ensures keys[k] in expected
    {
      FindIsExact(expected, keys[k], keys[k]);
    }
    return true;
  }

  method Locate(expected: seq<string>, key: string) returns (j: nat)
    ensures j == Find(expected, key)
  {
    j := 0;
    while j < |expected| && key != expected[j]
      invariant j <= |expected| && Find(expected, key) == Find(expected, key, j)
    {
      j := j + 1;
    }
  }

  function Elements(s: seq<string>): set<string> {
    set i | 0 <= i < |s| :: s[i]
  }

  lemma ElementCount(s: seq<string>)
    ensures |Elements(s)| <= |s|
    ensures (forall i, j :: 0 <= i < j < |s| ==> s[i] != s[j]) ==> |Elements(s)| == |s|
  {
    if s != [] {
      var t := s[..|s| - 1];
      ElementCount(t);
      assert Elements(s) == Elements(t) + {s[|s| - 1]};
      if forall i, j :: 0 <= i < j < |s| ==> s[i] != s[j] {
        assert s[|s| - 1] !in Elements(t);
      }
    }
  }

  /** Equally many distinct keys drawn from a table cover the whole table. */
  lemma SameKeysCover(keys: seq<string>, expected: seq<string>, i: nat)
    requires SameKeys(keys, expected) && i < |expected|
    ensures expected[i] in keys
  {
    ElementCount(keys);
    ElementCount(expected);
    assert Elements(keys) <= Elements(expected);
    assert expected[i] in Elements(expected);
    if expected[i] !in Elements(keys) {
      SmallerCount(Elements(keys), Elements(expected), expected[i]);
    }
  }

  /** Looking up every expected suffix finds its key, exactly when every member is right. */
  method CheckMembers(n: Names, members: seq<(string, string)>, expected: seq<string>) returns (ok: bool)
    requires |expected| <= 63
    ensures ok <==> MembersOk(n, members, expected)
  {
    var keys := Keys(members);
    ok := CheckShape(keys, expected);
    if !ok { return; }
    for i := 0 to |expected|
      invariant forall k :: 0 <= k < i ==> expected[k] in keys
      invariant forall k :: 0 <= k < i ==> members[Find(keys, expected[k])].1 == KeyFor(n, expected[k])
    {
      SameKeysCover(keys, expected, i);
      var j := Find(keys, expected[i]);
      if members[j].1 != KeyFor(n, expected[i]) {
        assert members[j].0 == keys[j] == expected[i];
        return false;
      }
    }
    forall j | 0 <= j < |members|
      ensures members[j].1 == KeyFor(n, members[j].0)
    {
      assert keys[j] in expected;
      var k :| 0 <= k < |expected| && expected[k] == keys[j];
      assert Find(keys, expected[k]) == j;
    }
  }

  method CheckHeader(h: Header, q: Query, schema: int, semantics: Semantics) returns (ok: bool)
    ensures ok <==> HeaderOk(h, q, schema, semantics)
  {
    if h.schema != schema || h.reportId != q.names.id || h.parentRunId != q.parent { return false; }
    return h.semantics == semantics && h.clock == OriginMonotonic;
  }

  method CheckManifest(m: Manifest, q: Query) returns (ok: bool)
    ensures ok <==> ManifestOk(m, q)
  {
    var count := |m.phaseIds|;
    ok := CheckHeader(m.header, q, 1, ManifestSemantics);
    if !ok || m.started < 0 || m.deadline <= m.started
       || m.deadline > MAX_EXACT || m.deadline - m.started > MAX_TIMEOUT_MS { return false; }
    if count != 10 && count != 15 && count != 16 { return false; }
    ok := CheckMembers(q.names, m.phaseIds, q.names.suffixes[..count]);
  }

  method CountNormal(p: Slots) returns (normal: nat)
    ensures normal == NormalCount(p)
  {
    normal := 0;
    while normal < 10 && p[normal].Some?
      invariant normal <= 10 && NormalCount(p) == NormalCount(p, normal)
    {
      normal := normal + 1;
    }
  }

  /** Comparing the gate array name by name. */
  method CheckGates(gates: seq<string>, n: Names, count: nat) returns (ok: bool)
    requires count <= 11
    ensures ok <==> gates == GateList(n, count)
  {
    if |gates| != count { return false; }
    for i := 0 to count
      invariant forall k :: 0 <= k < i ==> gates[k] == GateName(n, k)
    {
      if gates[i] != (if i != 0 then n.keys[i - 1] else n.id) {
        assert GateList(n, count)[i] == GateName(n, i);
        return false;
      }
    }
    return true;
  }

  const PHASES: seq<Phase> := [Workers, Aggregation, Execution, Approval, Delivery, DeliveryAudit]
  const MIN_NORMAL: seq<nat> := [0, 3, 5, 7, 8, 10]
  const MAX_NORMAL: seq<nat> := [3, 5, 6, 9, 9, 10]

  lemma NormalTables(phase: nat)
    requires phase < 6
    ensures MIN_NORMAL[phase] == MinNormal(phase) && MAX_NORMAL[phase] == MaxNormal(phase)
  {
  }

  method FindPhase(ph: Phase) returns (phase: nat)
    ensures phase == PhaseIndex(ph) <= 6
  {
    phase := 0;
    while phase < 6 && PHASES[phase] != ph
      invariant phase <= 6 && forall k :: 0 <= k < phase ==> PHASES[k] != ph
    {
      phase := phase + 1;
    }
    assert phase > 0 ==> PHASES[0] != ph;
    assert phase > 1 ==> PHASES[1] != ph;
    assert phase > 2 ==> PHASES[2] != ph;
    assert phase > 3 ==> PHASES[3] != ph;
    assert phase > 4 ==> PHASES[4] != ph;
    assert phase > 5 ==> PHASES[5] != ph;
  }

  method CheckCodeAndClock(code: int, observed: int, m: Manifest) returns (ok: bool)
    ensures ok <==> CodeOk(code) && ClockOk(observed, m)
  {
    if code < INT_MIN || code > INT_MAX || code == 0 { return false; }
    return observed >= m.started && observed <= MAX_EXACT;
  }

  /** One entry against the observation that it names. */
  method CheckEntry(e: StopEntry, phase: nat, p: Slots, n: Names) returns (ok: bool)
    ensures ok <==> EntryOk(e, phase, p, n) && EntryClear(e, p, n)
  {
    var role := if e.role == WorkerA then 0 else if e.role == WorkerB then 1 else if e.role == Aggregate then 2
                else if e.role == Execute then 3 else 4;
    if role == 4 || (e.taken && role < 2) { return false; }
    if (phase == 0 && role >= 2) || (phase == 1 && role != 2) || (phase >= 2 && role != 3) { return false; }
    var index := if !e.taken then 11 + role else if role == 2 then 4 else if e.observationId == n.keys[6] then 6 else 8;
    if p[index].None? || !p[index].value.ObservationRecord? { return false; }
    var o := p[index].value.obs;
    if e.boundary != (if e.taken then BeforeTransfer else AfterDrain) { return false; }
    if e.observationId != n.keys[index] { return false; }
    var texts := [(e.taskId, 64), (e.executionId, 64), (e.threadId, 64)];
    assert texts[0] == (e.taskId, 64) && texts[1] == (e.executionId, 64) && texts[2] == (e.threadId, 64);
    ok := CheckTexts(texts);
    if !ok || e.taskId != o.taskId || e.executionId != o.executionId || e.threadId != o.route.threadId { return false; }
    if e.status < 2 || e.status != o.status || e.code != o.code || e.unresponsive != o.unresponsive { return false; }
    return !e.approvalPending && (e.taken || !o.approvalPending);
  }

  lemma EntryRole(e: StopEntry, phase: nat, p: Slots, n: Names)
    requires EntryOk(e, phase, p, n)
    ensures !e.role.OtherRole?
  {
  }

  method CheckStop(s: Stop, p: Slots, m: Manifest, q: Query) returns (ok: bool)
    ensures ok <==> StopOk(s, p, m, q) && StopClear(s, p, q.names)
  {
    hide EntryOk, EntryClear, GateList, HeaderOk, NormalCount;
    var phase := FindPhase(s.phase);
    var header := CheckHeader(s.header, q, 1, StopSemantics);
    var times := CheckCodeAndClock(s.code, s.observed, m);
    if phase == 6 || !header || !times || |s.tasks| > 2 { return false; }
    var normal := CountNormal(p);
    NormalTables(phase);
    if normal < MIN_NORMAL[phase] || normal > MAX_NORMAL[phase] { return false; }
    var listed := CheckGates(s.gates, q.names, normal + 1);
    if !listed { return false; }
    var seen: set<Role> := {};
    for i := 0 to |s.tasks|
      invariant seen == set k | 0 <= k < i :: s.tasks[k].role
      invariant forall k :: 0 <= k < i ==> EntryOk(s.tasks[k], phase, p, q.names) && EntryClear(s.tasks[k], p, q.names)
      invariant forall k, l :: 0 <= k < l < i ==> s.tasks[k].role != s.tasks[l].role
    {
      var e := s.tasks[i];
      if EntryOk(e, phase, p, q.names) { EntryRole(e, phase, p, q.names); }
      if e.role.OtherRole? || e.role in seen { return false; }
      seen := seen + {e.role};
      ok := CheckEntry(e, phase, p, q.names);
      if !ok { return; }
    }
    return true;
  }

  lemma RowsSurvive(f: Failure, p: Slots, expected: seq<nat>)
    requires f.CleanupFailure? && |f.cleaned| <= |expected| && forall i :: 0 <= i < |expected| ==> expected[i] < 4
    ensures forall gate :: CleanupRowsOk(f, p, expected, gate) ==>
      forall i :: 0 <= i < |f.cleaned| ==> p[11 + expected[i]].Some?
  {
  }

  method CheckCleanupFailure(f: Failure, p: Slots, m: Manifest, q: Query) returns (ok: bool)
    requires f.CleanupFailure?
    ensures ok <==> CleanupFailureOk(f, p, m, q)
  {
    hide CodeOk, ClockOk, GateList, CleanupRowsOk, CleanupList, HeaderOk, NormalCount, MinNormal, MaxNormal;
    var phase := FindPhase(f.phase);
    var header := CheckHeader(f.header, q, 2, CleanupSemantics);
    var times := CheckCodeAndClock(f.gateCode, f.observed, m);
    if phase == 6 || !header || !times { return false; }
    times := CheckCodeAndClock(f.operation, f.observed, m);
    if !times { return false; }
    var normal := CountNormal(p);
    NormalTables(phase);
    if normal < MIN_NORMAL[phase] || normal > MAX_NORMAL[phase] { return false; }
    if phase == 3 && normal == 9 && !(ReviewAt(p).Some? && ReviewAt(p).value.decision == Reject) { return false; }
    var listed := CheckGates(f.gates, q.names, normal + 1);
    if !listed { return false; }
    var expected := ExpectedRows(phase, normal);
    if |f.cleaned| > |expected| { return false; }
    var cleaned := CheckCleaned(f.cleaned, expected, p, q.names);
    RowsSurvive(f, p, expected);
    if !cleaned { return false; }
    var gate := 0;
    while gate < 5 && f.gate != Some(q.names.keys[if gate == 4 then 10 else 11 + gate])
      invariant gate <= 5 && AttemptedGate(f, q.names) == AttemptedGate(f, q.names, gate)
    {
      gate := gate + 1;
    }
    if f.gate.Some? {
      if gate == 5 || f.outcome != Unresolved { return false; }
      if gate == 4 {
        if |f.cleaned| != |expected| { return false; }
      } else if |f.cleaned| == |expected| || gate != expected[|f.cleaned|] {
        return false;
      }
    } else if f.outcome != NotAttempted {
      return false;
    }
    ok := CheckRows(f, p, expected, gate);
  }

  /** Which rows the cleanup of this phase writes. */
  method ExpectedRows(phase: nat, normal: nat) returns (expected: seq<nat>)
    ensures expected == Expected(phase, normal)
  {
    expected := [];
    if phase == 0 {
      if normal != 0 { expected := expected + [0]; }
      if normal > 1 { expected := expected + [1]; }
    } else if phase == 1 && normal == 4 {
      expected := expected + [2];
    } else if (phase == 2 && normal == 6) || (phase == 3 && normal >= 8) || (phase == 4 && normal == 8) {
      expected := expected + [3];
    }
  }

  /** The acknowledged cleanup names are the expected ones, in order, and their rows survive. */
  method CheckCleaned(cleaned: seq<string>, expected: seq<nat>, p: Slots, n: Names) returns (ok: bool)
    requires |cleaned| <= |expected| && forall i :: 0 <= i < |expected| ==> expected[i] < 4
    ensures ok <==>
      && cleaned == CleanupList(n, expected[..|cleaned|])
      && forall i :: 0 <= i < |cleaned| ==> p[11 + expected[i]].Some?
  {
    for i := 0 to |cleaned|
      invariant forall k :: 0 <= k < i ==> cleaned[k] == CleanupKey(n, expected[k]) && p[11 + expected[k]].Some?
    {
      if cleaned[i] != n.keys[11 + expected[i]] || p[11 + expected[i]].None? {
        assert CleanupList(n, expected[..|cleaned|])[i] == CleanupKey(n, expected[i]);
        return false;
      }
    }
    return true;
  }

  method CheckRows(f: Failure, p: Slots, expected: seq<nat>, gate: nat) returns (ok: bool)
    requires f.CleanupFailure? && |f.cleaned| <= |expected|
    requires forall i :: 0 <= i < |expected| ==> expected[i] < 4
    requires forall i :: 0 <= i < |f.cleaned| ==> p[11 + expected[i]].Some?
    ensures ok <==> CleanupRowsOk(f, p, expected, gate)
  {
    for role := 0 to 4
      invariant forall r: nat :: r < role && p[11 + r].Some? ==>
        (f.gate.Some? && gate == r) || r in expected[..|f.cleaned|]
    {
      var permitted := f.gate.Some? && gate == role;
      for i := 0 to |f.cleaned|
        invariant permitted <==> (f.gate.Some? && gate == role) || role in expected[..i]
      {
        if expected[i] == role { permitted := true; }
        assert expected[..i + 1] == expected[..i] + [expected[i]];
      }
      if p[11 + role].Some? && !permitted { return false; }
    }
    return p[10].Some? ==>
        && f.gate.Some? && gate == 4 && p[10].value.StopRecord?
        && p[10].value.stop.phase == f.phase && p[10].value.stop.code == f.operation
        && p[10].value.stop.observed <= f.observed;
  }

  const GATE_PHASES: seq<Phase> := [
    Manifesting, Workers, Workers, Workers, Aggregation, Aggregation, Execution, Approval, Approval, Delivery,
    DeliveryAudit]

  lemma GatePhases(gate: nat)
    requires gate < 11
    ensures GATE_PHASES[gate] == GatePhase(gate)
  {
  }

  method FindFailedGate(f: Failure, n: Names) returns (gate: nat)
    requires f.GateFailure?
    ensures gate == FailedGate(f, n)
  {
    gate := 1;
    while gate < 11 && f.gateId != n.keys[gate - 1]
      invariant 1 <= gate <= 11 && FailedGate(f, n) == FailedGate(f, n, gate)
    {
      gate := gate + 1;
    }
  }

  method CheckGateFailure(f: Failure, p: Slots, m: Manifest, q: Query) returns (ok: bool)
    requires f.GateFailure?
    ensures ok <==> GateFailureOk(f, p, m, q)
  {
    hide CodeOk, ClockOk, GateList, HeaderOk, NormalCount, FailedGate, GatePhase;
    var header := CheckHeader(f.header, q, 1, GateSemantics);
    var times := CheckCodeAndClock(f.gateCode, f.observed, m);
    if !header || f.outcome != Unresolved || !times { return false; }
    var gate := FindFailedGate(f, q.names);
    if gate == 11 { return false; }
    GatePhases(gate);
    if f.phase != GATE_PHASES[gate] && !(gate == 9 && f.phase == Approval) { return false; }
    var normal := CountNormal(p);
    if normal != gate - 1 && normal != gate { return false; }
    for i := 10 to 15
      invariant forall k :: 10 <= k < i ==> p[k].None?
    {
      if p[i].Some? { return false; }
    }
    ok := CheckGates(f.gates, q.names, gate);
  }

  const KINDS := "iigioioro"

  /** The loader of a slot, by the kind of record that belongs there. */
  method CheckLoad(n: Names, i: nat, r: Record) returns (ok: bool)
    requires i < 16
    ensures ok <==> Loads(n, i, r)
  {
    hide IntentValid, ObservationValid, GroupValid, ReviewValid;
    if i == 15 { return r.FailureRecord?; }
    if i == 10 { return r.StopRecord?; }
    if i == 9 { return r.ReadyRecord?; }
    if i >= 11 || KINDS[i] == 'o' {
      if !r.ObservationRecord? { return false; }
      ok := CheckObservationRecord(r.obs, n.keys[i]);
    } else if KINDS[i] == 'i' {
      if !r.IntentRecord? { return false; }
      ok := CheckIntentRecord(r.intent, n.keys[i]);
    } else if KINDS[i] == 'g' {
      if !r.GroupRecord? { return false; }
      ok := CheckGroupRecord(r.group, n.keys[i]);
    } else {
      if !r.ReviewRecord? { return false; }
      ok := CheckReviewRecord(r.review, n.keys[i]);
    }
  }

  /** The loading loop with its prefix and reservation checks. */
  method LoadAll(m: Manifest, p: Slots, n: Names) returns (ok: bool)
    ensures ok <==> LoadedOk(m, p, n)
  {
    for i := 0 to 16
      invariant forall k :: 0 <= k < i && p[k].Some? ==> Loads(n, k, p[k].value)
      invariant forall k :: 1 <= k < i && k < 10 && p[k].Some? ==> p[k - 1].Some?
      invariant forall k :: 10 <= k < i && p[k].Some? ==> |m.phaseIds| >= 15
      invariant i == 16 && p[15].Some? ==> |m.phaseIds| >= 16
    {
      if p[i].Some? {
        ok := CheckLoad(n, i, p[i].value);
        if !ok { return; }
        if (0 < i < 10 && p[i - 1].None?) || (i >= 10 && |m.phaseIds| < 15) || (i == 15 && |m.phaseIds| < 16) {
          return false;
        }
      }
    }
    return true;
  }

  const INTENT_SLOTS: seq<nat> := [0, 1, 3, 5]

  lemma IntentSlots(r: nat)
    requires r < 4
    ensures INTENT_SLOTS[r] == IntentSlot(r)
  {
  }

  /** The thread, parent, role, turns and endpoint of a route. */
  method CheckRoute(route: Route, q: Query, r: nat) returns (ok: bool)
    requires r < 4
    ensures ok <==> RouteOk(route, q, RoleAt(r))
  {
    IntentSlots(r);
    if route.threadId != q.names.keys[INTENT_SLOTS[r]] || route.parentRunId != q.parent { return false; }
    if route.role != (if r == 2 then Plan else Run) || route.maxTurns != (if r == 3 then 2 else 0) { return false; }
    return (route.endpoint, r == 3) in q.bindings;
  }

  /** An observation names the task and the route of its intent. */
  method CheckObservation(o: Observation, intent: Option<Intent>, q: Query, r: nat) returns (ok: bool)
    requires r < 4
    ensures ok <==> ObsOk(o, intent, q, RoleAt(r))
  {
    hide RouteOk;
    if intent.None? { return false; }
    ok := CheckRoute(o.route, q, r);
    if !ok { return; }
    var i := intent.value;
    if o.taskId != i.taskId || o.route.endpoint != i.route.endpoint || o.route.model != i.route.model { return false; }
    if o.route.provider != i.route.provider || o.route.role != i.route.role { return false; }
    return o.route.threadId == i.route.threadId && o.route.parentRunId == i.route.parentRunId;
  }

  method CheckRole(p: Slots, q: Query, r: nat) returns (ok: bool)
    requires r < 4
    ensures ok <==> RouteSlotOk(p, q, r)
  {
    hide RouteOk, ObsOk;
    IntentSlots(r);
    if p[INTENT_SLOTS[r]].Some? {
      if !p[INTENT_SLOTS[r]].value.IntentRecord? { return false; }
      ok := CheckRoute(p[INTENT_SLOTS[r]].value.intent.route, q, r);
      if !ok { return; }
    }
    if p[11 + r].None? { return true; }
    if !p[11 + r].value.ObservationRecord? { return false; }
    ok := CheckObservation(p[11 + r].value.obs, IntentAt(p, INTENT_SLOTS[r]), q, r);
    if !ok || p[11 + r].value.obs.status < 2 { return false; }
  }

  method CheckFanIn(p: Slots, q: Query) returns (ok: bool)
    ensures ok <==> FanInOk(p, q)
  {
    hide ObsOk;
    if p[2].None? { return true; }
    if !p[2].value.GroupRecord? { return false; }
    var g := p[2].value.group;
    if g.groupId != q.names.keys[16] || g.parentRunId != q.parent { return false; }
    if !g.aggregation || |g.members| != 2 { return false; }
    for i := 0 to 2
      invariant forall k :: 0 <= k < i ==> ObsOk(g.members[k], IntentAt(p, k), q, RoleAt(k))
    {
      ok := CheckObservation(g.members[i], IntentAt(p, i), q, i);
      if !ok { return; }
    }
    assert RoleAt(0) == WorkerA && RoleAt(1) == WorkerB;
    return true;
  }

  method CheckAggregateFinal(p: Slots, q: Query) returns (ok: bool)
    ensures ok <==> AggregateFinalOk(p, q)
  {
    hide ObsOk;
    if p[4].None? { return true; }
    if !p[4].value.ObservationRecord? { return false; }
    ok := CheckObservation(p[4].value.obs, IntentAt(p, 3), q, 2);
    if !ok || p[4].value.obs.status != 2 || p[4].value.obs.code != 0 { return false; }
  }

  method CheckPending(p: Slots, q: Query) returns (ok: bool)
    ensures ok <==> PendingOk(p, q)
  {
    hide ObsOk;
    if p[6].None? { return true; }
    if !p[6].value.ObservationRecord? { return false; }
    ok := CheckObservation(p[6].value.obs, IntentAt(p, 5), q, 3);
    if !ok || !p[6].value.obs.approvalPending || p[6].value.obs.resumes != 0 { return false; }
  }

  /** The review names the pending observation and the admission. */
  method CheckReview(p: Slots) returns (ok: bool)
    ensures ok <==> ReviewOk(p)
  {
    if p[7].None? { return true; }
    if !p[7].value.ReviewRecord? || ObsAt(p, 6).None? || IntentAt(p, 5).None? { return false; }
    var r, o, i := p[7].value.review, ObsAt(p, 6).value, IntentAt(p, 5).value;
    if r.taskId != o.taskId || r.previousExecutionId != o.executionId { return false; }
    if o.runId != Some(r.sourceRunId) || o.checkpointId != Some(r.sourceCheckpointId) { return false; }
    if r.admissionId != Some(i.admissionId) || r.endpoint != i.route.endpoint { return false; }
    if r.model != i.route.model || r.provider != i.route.provider || r.threadId != i.route.threadId { return false; }
    return r.parentRunId == i.route.parentRunId && r.maxTurns == 2 && r.segment == 1;
  }

  method CheckFinal(p: Slots, q: Query) returns (ok: bool)
    ensures ok <==> ExecuteFinalOk(p, q) && FinalStatusOk(p)
  {
    hide ObsOk;
    if p[8].None? { return true; }
    if !p[8].value.ObservationRecord? || ReviewAt(p).None? { return false; }
    var o, r := p[8].value.obs, ReviewAt(p).value;
    ok := CheckObservation(o, IntentAt(p, 5), q, 3);
    if !ok || o.executionId != r.executionId || o.resumes != 1 || o.approvalPending { return false; }
    return o.code == 0 && o.status == if r.decision == Approve then 2 else 3;
  }

  method CheckCleanupSegment(p: Slots) returns (ok: bool)
    ensures ok <==> CleanupSegmentOk(p)
  {
    if p[14].None? || !p[14].value.ObservationRecord? { return true; }
    var o := p[14].value.obs;
    if o.resumes > 1 { return false; }
    return o.resumes == 0 || (ReviewAt(p).Some? && o.executionId == ReviewAt(p).value.executionId);
  }

  /** The ready record names the approved, completed execution. */
  method CheckReady(p: Slots, q: Query) returns (ok: bool)
    ensures ok <==> ReadyOk(p, q)
  {
    if p[9].None? { return true; }
    if !p[9].value.ReadyRecord? || ReviewAt(p).None? || ObsAt(p, 8).None? { return false; }
    var r, o := p[9].value.ready, ObsAt(p, 8).value;
    if r.schema != 1 || r.reportId != q.names.id || r.semantics != ReadySemantics { return false; }
    if r.verification != ReferenceIdentityOnly || ReviewAt(p).value.decision != Approve { return false; }
    if o.status != 2 || o.runtimeStatus != Some(RunCompleted) { return false; }
    if r.terminalObservationId != q.names.keys[8] { return false; }
    return r.taskId == o.taskId && r.executionId == o.executionId && o.runId == Some(r.runId);
  }

  /** The identities along the normal records, in protocol order. */
  method CheckChain(p: Slots, q: Query) returns (ok: bool)
    ensures ok <==> ChainOk(p, q) && FinalStatusOk(p)
  {
    hide FanInOk, AggregateFinalOk, PendingOk, ReviewOk, ExecuteFinalOk, FinalStatusOk, CleanupSegmentOk, ReadyOk;
    ok := CheckFanIn(p, q);
    if !ok { return; }
    ok := CheckAggregateFinal(p, q);
    if !ok { return; }
    ok := CheckPending(p, q);
    if !ok { return; }
    ok := CheckReview(p);
    if !ok { return; }
    ok := CheckFinal(p, q);
    if !ok { return; }
    ok := CheckCleanupSegment(p);
    if !ok { return; }
    ok := CheckReady(p, q);
  }

  method CheckRoutes(p: Slots, q: Query) returns (ok: bool)
    ensures ok <==> RoutesOk(p, q)
  {
    for r := 0 to 4
      invariant forall k :: 0 <= k < r ==> RouteSlotOk(p, q, k)
    {
      ok := CheckRole(p, q, r);
      if !ok { return; }
    }
    return true;
  }

  method CheckTail(p: Slots, m: Manifest, q: Query) returns (ok: bool)
    requires p[10].Some? ==> p[10].value.StopRecord?
    requires p[15].Some? ==> p[15].value.FailureRecord?
    ensures ok <==> TailOk(p, m, q) && NoApprovalLeft(View(None, p), q.names)
  {
    if p[10].Some? {
      ok := CheckStop(p[10].value.stop, p, m, q);
      if !ok { return; }
    }
    if p[15].None? { return true; }
    var f := p[15].value.failure;
    if f.CleanupFailure? { ok := CheckCleanupFailure(f, p, m, q); } else { ok := CheckGateFailure(f, p, m, q); }
  }

  /** The whole inspection: loading, the per-role checks, the identity chain, then the
      stop and failure records. */
  method Inspect(v: View, q: Query) returns (ok: bool)
    requires v.Valid()
    ensures ok <==> Accepts(v, q)
  {
    if v.manifest.None? || !v.manifest.value.ManifestRecord? { return false; }
    var m, p := v.manifest.value.manifest, v.p;
    ok := CheckManifest(m, q);
    if !ok { return; }
    ok := LoadAll(m, p, q.names);
    if !ok { return; }
    ok := CheckRoutes(p, q);
    if !ok { return; }
    ok := CheckChain(p, q);
    if !ok { return; }
    assert p[10].Some? ==> Loads(q.names, 10, p[10].value);
    assert p[15].Some? ==> Loads(q.names, 15, p[15].value);
    ok := CheckTail(p, m, q);
  }
}
