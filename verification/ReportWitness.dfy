/** Concrete environments: one in which a report is delivered, and one of each kind in which
    the writer leaves records that its own inspection rejects. */
module ReportWitness {
  import opened Collections
  import opened ReportKeys
  import opened ReportRecords
  import opened ReportTasks
  import opened ReportInspector
  import opened ReportWriter
  import opened ReportStages
  import opened ReportRun

  /** Each task runs under its own id on its own endpoint. */
  function Submitted(name: string): Submission { Submission(OK, name, name, "m", "v", Ack) }

  function Finished(): Segment { Ended(COMPLETED, OK, false, Some("r"), None, Some(RunCompleted), None) }

  function AskingReview(): Segment { Ended(INTERRUPTED, OK, true, Some("r"), Some("k"), Some(RunInterrupted), None) }

  function Broke(): Segment { Ended(FAILED, EIO, false, None, None, None, None) }

  function Waits(s: Segment): Waited { Waited(if s.Running? then ETIMEDOUT else OK, s, false, true) }

  /** Every answer is good except the ones given here. */
  function Environment(execute: Segment, decision: int, resumed: Segment, drained: Segment, first: Answer := Ack,
                       stop: Answer := Ack): World {
    World(0, 1000, Ack,
          [Submitted("a").(answer := first), Submitted("b")], [Waits(Finished()), Waits(Finished())], OK, OK, Ack, OK,
          true, Submitted("c"), Waits(Finished()), OK, Ack, OK, OK,
          true, Submitted("e"), Waits(execute), OK, Ack,
          OK, decision, true, OK, "x", Ack, Waits(resumed), Ack,
          true, OK, Ack, OK, OK, Ack, OK,
          [Finished(), Finished()], drained,
          OK, [RoleAudit(OK, Ack, OK), RoleAudit(OK, Ack, OK), RoleAudit(OK, Ack, OK), RoleAudit(OK, Ack, OK)],
          OK, 500, stop, OK, 600, Ack)
  }

  ghost predicate Named(q: Query) {
    && ValidId(q.names.id) && Text(q.parent, 128)
    && (forall i :: 0 <= i < 17 ==> RouterId(q.names.keys[i])) && q.names.keys[0] != q.names.keys[1]
    && ("a", false) in q.bindings && ("b", false) in q.bindings && ("c", false) in q.bindings
    && ("e", true) in q.bindings
  }

  /** Any report id and parent run. */
  function QueryFor(id: string, parent: string): Query {
    Query(NamesOf(id), parent, {("a", false), ("b", false), ("c", false), ("e", true)})
  }

  lemma KeyIsId(id: string, suffix: string)
    requires ValidId(id) && IdText(suffix) && |suffix| <= 15
    ensures RouterId(Key(id, suffix))
  {
  }

  lemma KeysAreIds(id: string, i: nat)
    requires ValidId(id) && i < 17
    ensures RouterId(NamesOf(id).keys[i])
  {
    hide RouterId, Key, IdText;
    SuffixesAreIds(if i < 16 then i else 0);
    SuffixLengths();
    KeyIsId(id, if i < 16 then SUFFIXES[i] else ANALYSIS);
  }

  lemma QueryIsNamed(id: string, parent: string)
    requires ValidId(id) && Text(parent, 128)
    ensures NamesOk(QueryFor(id, parent).names) && Named(QueryFor(id, parent))
  {
    NamesOfAreOk(id);
    var keys := NamesOf(id).keys;
    assert keys[0] != keys[1];
    forall i | 0 <= i < 17
      ensures RouterId(keys[i])
    {
      KeysAreIds(id, i);
    }
  }

  lemma CohortPasses(q: Query, w: World)
    requires Named(q) && w.adopt == OK && w.cohort == OK && w.fanIn == Ack && w.bind == OK
    requires w.workers == [Submitted("a"), Submitted("b")]
    requires w.workerWait == [Waits(Finished()), Waits(Finished())]
    ensures FanInGood(q, w)
  {
  }

  lemma EnvironmentReaches(q: Query, execute: Segment, decision: int, resumed: Segment, drained: Segment, stop: Answer)
    requires Named(q)
    ensures ReachesExecute(q, Environment(execute, decision, resumed, drained, Ack, stop))
    ensures stop == Ack ==> AuditsAnswered(Environment(execute, decision, resumed, drained, Ack, stop))
  {
    CohortPasses(q, Environment(execute, decision, resumed, drained, Ack, stop));
    hide FanInGood, GroupValid;
  }

  lemma EnvironmentIsWorld(q: Query, w: World)
    requires Named(q) && Terminal(w.drainTask) && |w.workers| == 2
    requires w == Environment(w.executeWait.segment, w.decision, w.resumeWait.segment, w.drainTask, w.workers[0].answer,
                              w.stop)
    requires w.executeWait.segment.Ended? ==> Terminal(w.executeWait.segment)
    requires w.resumeWait.segment.Ended? ==> Terminal(w.resumeWait.segment)
    ensures WorldOk(w, q)
  {
  }

  /** Cancelled while running, then interrupted for a review. */
  function LateWorld(): World { Environment(Running, 1, Finished(), AskingReview()) }

  /** Cancelled while running, then finished. */
  function TimeoutWorld(): World { Environment(Running, 1, Finished(), Finished()) }

  /** Rejected, and the resumed segment fails. */
  function RejectedWorld(): World { Environment(AskingReview(), 0, Broke(), Finished()) }

  function SmoothWorld(): World { Environment(AskingReview(), 1, Finished(), Finished()) }

  /** The first admission commits without acknowledgement. */
  function LostGateWorld(): World { Environment(AskingReview(), 1, Finished(), Finished(), Lost(EIO)) }

  /** A timeout whose stop record the store refuses. */
  function RefusedStopWorld(): World { Environment(Running, 1, Finished(), Finished(), Ack, Refused(EIO)) }

  lemma TimeoutsAreTimeouts(q: Query)
    requires Named(q)
    ensures WorldOk(LateWorld(), q) && TimeoutFamily(q, LateWorld())
    ensures WorldOk(TimeoutWorld(), q) && TimeoutFamily(q, TimeoutWorld())
  {
    EnvironmentReaches(q, Running, 1, Finished(), AskingReview(), Ack);
    EnvironmentReaches(q, Running, 1, Finished(), Finished(), Ack);
    EnvironmentIsWorld(q, LateWorld());
    EnvironmentIsWorld(q, TimeoutWorld());
    hide ReachesExecute, AuditsAnswered, WorldOk;
  }

  lemma RefusedStopTimesOut(q: Query)
    requires Named(q)
    ensures WorldOk(RefusedStopWorld(), q) && TimesOut(q, RefusedStopWorld())
  {
    EnvironmentReaches(q, Running, 1, Finished(), Finished(), Refused(EIO));
    EnvironmentIsWorld(q, RefusedStopWorld());
    hide ReachesExecute, WorldOk, AuditsAnswered;
  }

  lemma LostGateFails(q: Query)
    requires Named(q)
    ensures WorldOk(LostGateWorld(), q) && FirstGateFails(q, LostGateWorld())
  {
    EnvironmentIsWorld(q, LostGateWorld());
    hide WorldOk, IntentValid;
  }

  lemma PendingAndReviewed(q: Query, decision: int, resumed: Segment)
    requires Named(q) && (decision == 0 || decision == 1)
    ensures var w := Environment(AskingReview(), decision, resumed, Finished()); PendingGood(q, w) && ReviewGood(q, w)
  {
  }

  lemma RejectedWorldIsRejected(q: Query)
    requires Named(q)
    ensures WorldOk(RejectedWorld(), q) && RejectedFamily(q, RejectedWorld()) && !FinalClean(RejectedWorld())
  {
    EnvironmentReaches(q, AskingReview(), 0, Broke(), Finished(), Ack);
    EnvironmentIsWorld(q, RejectedWorld());
    PendingAndReviewed(q, 0, Broke());
    hide ReachesExecute, PendingGood, ReviewGood, WorldOk;
  }

  lemma SmoothWorldIsSmooth(q: Query)
    requires Named(q)
    ensures WorldOk(SmoothWorld(), q) && Smooth(q, SmoothWorld())
  {
    EnvironmentReaches(q, AskingReview(), 1, Finished(), Finished(), Ack);
    EnvironmentIsWorld(q, SmoothWorld());
    PendingAndReviewed(q, 1, Finished());
    hide ReachesExecute, PendingGood, ReviewGood, WorldOk;
  }

  // ----- The runs -----

  /** Agreement fails for this run, whatever the report id and its parent: an approval is left pending. */
  method LateRun(id: string, parent: string) returns (log: seq<Write>)
    requires ValidId(id) && Text(parent, 128)
    ensures Owned(log) && ViewOf(log).p[10].Some? && !Accepts(ViewOf(log), QueryFor(id, parent))
  {
    hide Accepts, Agrees, Normal, TraceOk, WorldOk, TimeoutFamily, RejectedFamily, Smooth, Named, NamesOk, Ending,
         NamesOf, TimesOut, FirstGateFails, NoneTwice, Owned;
    QueryIsNamed(id, parent);
    TimeoutsAreTimeouts(QueryFor(id, parent));
    var trace, attempts, rc;
    log, trace, attempts, rc := RunReport(QueryFor(id, parent), LateWorld());
  }

  /** The same run with a segment that finishes leaves an accepted stop record. */
  method StoppedRun(id: string, parent: string) returns (log: seq<Write>)
    requires ValidId(id) && Text(parent, 128)
    ensures Owned(log) && ViewOf(log).p[10].Some? && Accepts(ViewOf(log), QueryFor(id, parent))
  {
    hide Accepts, Agrees, Normal, TraceOk, WorldOk, TimeoutFamily, RejectedFamily, Smooth, Named, NamesOk, Ending,
         NamesOf, TimesOut, FirstGateFails, NoneTwice, Owned;
    QueryIsNamed(id, parent);
    TimeoutsAreTimeouts(QueryFor(id, parent));
    var trace, attempts, rc;
    log, trace, attempts, rc := RunReport(QueryFor(id, parent), TimeoutWorld());
  }

  /** Agreement fails for this run too: the rejected segment did not end interrupted with code zero. */
  method RejectedRun(id: string, parent: string) returns (log: seq<Write>)
    requires ValidId(id) && Text(parent, 128)
    ensures Owned(log) && ViewOf(log).p[8].Some? && !Accepts(ViewOf(log), QueryFor(id, parent))
  {
    hide Accepts, Agrees, Normal, TraceOk, WorldOk, TimeoutFamily, RejectedFamily, Smooth, Named, NamesOk, Ending,
         NamesOf, TimesOut, FirstGateFails, NoneTwice, Owned, FinalClean;
    QueryIsNamed(id, parent);
    RejectedWorldIsRejected(QueryFor(id, parent));
    var trace, attempts, rc;
    log, trace, attempts, rc := RunReport(QueryFor(id, parent), RejectedWorld());
  }

  lemma JudgedByDiagnostic(log: seq<Write>, q: Query, w: World, trace: Trace, attempts: seq<nat>, delivered: bool)
    requires Owned(log) && log != [] && Agrees(log, q, w) && Ending(q, w, ViewOf(log).p, trace, attempts, delivered)
    requires ReserveGood(q, w) && !delivered && FailureAnswered(w) && !w.failure.Refused?
    requires trace.gateFailed || w.stop.Refused?
    requires ViewOf(log).p[8].None?
    ensures Accepts(ViewOf(log), q)
    ensures ViewOf(log).p[15].Some? && ViewOf(log).p[15].value.FailureRecord?
    ensures ViewOf(log).p[15].value.failure.GateFailure? <==> trace.gateFailed
  {
    hide Accepts, Agrees, Owned, Smooth, ReserveGood, WriteAhead, StopAccounted, AuditsAnswered, RowSkipped;
    FamiliesAreJudged(log, q, w);
  }

  lemma NoFinalYet(p: Slots, trace: Trace)
    requires WriteAhead(p, trace) && TraceOk(trace) && trace.gateFailed && trace.failedGate == 1
    ensures p[8].None?
  {
  }

  lemma EndingParts(q: Query, w: World, p: Slots, trace: Trace, attempts: seq<nat>, delivered: bool)
    requires Ending(q, w, p, trace, attempts, delivered)
    ensures WriteAhead(p, trace) && (0 in trace.acknowledged <==> ReserveGood(q, w)) && (delivered <==> Smooth(q, w))
  {
    hide WriteAhead, ReserveGood, Smooth, StopAccounted, AuditsAnswered, RowSkipped;
  }

  /** A lost acknowledgement at the first gate leaves an accepted version 1 record. */
  method GateFailureRun(id: string, parent: string) returns (log: seq<Write>)
    requires ValidId(id) && Text(parent, 128)
    ensures Owned(log) && Accepts(ViewOf(log), QueryFor(id, parent)) && ViewOf(log).p[15].Some?
    ensures ViewOf(log).p[15].value.FailureRecord? && ViewOf(log).p[15].value.failure.GateFailure?
  {
    hide Accepts, Agrees, Normal, TraceOk, WorldOk, TimeoutFamily, RejectedFamily, Named, NamesOk, Ending, NamesOf,
         TimesOut, NoneTwice, WriteAhead, Admitted;
    var q := QueryFor(id, parent);
    QueryIsNamed(id, parent);
    LostGateFails(q);
    var trace, attempts, rc;
    log, trace, attempts, rc := RunReport(q, LostGateWorld());
    EndingParts(q, LostGateWorld(), ViewOf(log).p, trace, attempts, rc == OK);
    NoFinalYet(ViewOf(log).p, trace);
    JudgedByDiagnostic(log, q, LostGateWorld(), trace, attempts, rc == OK);
  }

  /** A refused stop record leaves an accepted version 2 record. */
  method CleanupFailureRun(id: string, parent: string) returns (log: seq<Write>)
    requires ValidId(id) && Text(parent, 128)
    ensures Owned(log) && Accepts(ViewOf(log), QueryFor(id, parent)) && ViewOf(log).p[15].Some?
    ensures ViewOf(log).p[15].value.FailureRecord? && ViewOf(log).p[15].value.failure.CleanupFailure?
  {
    hide Accepts, Agrees, Normal, TraceOk, WorldOk, TimeoutFamily, RejectedFamily, Named, NamesOk, Ending, NamesOf,
         FirstGateFails, NoneTwice, WriteAhead, Smooth;
    var q := QueryFor(id, parent);
    QueryIsNamed(id, parent);
    RefusedStopTimesOut(q);
    var trace, attempts, rc;
    log, trace, attempts, rc := RunReport(q, RefusedStopWorld());
    hide TimesOut;
    EndingParts(q, RefusedStopWorld(), ViewOf(log).p, trace, attempts, rc == OK);
    JudgedByDiagnostic(log, q, RefusedStopWorld(), trace, attempts, rc == OK);
  }

  /** And this one is delivered and accepted. */
  method SmoothRun(id: string, parent: string) returns (log: seq<Write>)
    requires ValidId(id) && Text(parent, 128)
    ensures Owned(log) && Accepts(ViewOf(log), QueryFor(id, parent)) && ViewOf(log).p[9].Some?
  {
    hide Accepts, Agrees, RecordsOk, TraceOk, WorldOk, TimeoutFamily, RejectedFamily, Smooth, Named, NamesOk, NamesOf,
         TimesOut, FirstGateFails, NoneTwice, Owned, WriteAhead, StopAccounted, ReserveGood;
    QueryIsNamed(id, parent);
    SmoothWorldIsSmooth(QueryFor(id, parent));
    var trace, attempts, rc;
    log, trace, attempts, rc := RunReport(QueryFor(id, parent), SmoothWorld());
  }
}
