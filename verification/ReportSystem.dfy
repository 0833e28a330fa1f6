/** The report theorems together: many runs, one store, one inspection. */
module ReportSystem {
  import opened Collections
  import opened ReportKeys
  import opened ReportRecords
  import opened ReportTasks
  import opened ReportInspector
  import opened ReportWriter
  import opened ReportStages
  import opened ReportRun
  import opened ReportNamespace

  /** One report run: its id, its query and world, and what it does if nothing interrupts it. */
  datatype Session = Session(id: string, query: Query, world: World, log: seq<Write>, trace: Trace,
                             attempts: seq<nat>, rc: Rc)

  /** What a run of the writer guarantees of its own log and trace. It was told that it owns its id
      exactly if the store acknowledged its manifest, and nothing follows a lost one. */
  ghost predicate SessionOk(p: Session) {
    && p.query.names == NamesOf(p.id)
    && Owned(p.log) && Agrees(p.log, p.query, p.world)
    && Ending(p.query, p.world, ViewOf(p.log).p, p.trace, p.attempts, p.rc == OK)
    && (Reserved(p) ==> p.world.manifest == Ack && p.log != [])
    && (!Reserved(p) ==> |p.log| <= 1 && (p.log != [] ==> p.world.manifest.Lost?))
  }

  predicate Reserved(p: Session) { 0 in p.trace.acknowledged }

  /** Whatever a run of the writer returns is such a session, with exactly that log and trace. */
  lemma RunIsSession(p: Session)
    requires p.query.names == NamesOf(p.id) && Owned(p.log) && Agrees(p.log, p.query, p.world)
    requires Ending(p.query, p.world, ViewOf(p.log).p, p.trace, p.attempts, p.rc == OK)
    requires 0 !in p.trace.acknowledged ==> |p.log| <= 1 && (p.log != [] ==> p.world.manifest.Lost?)
    requires 0 in p.trace.acknowledged ==> p.log != []
    ensures SessionOk(p)
  {
    hide Agrees, NamesOf, WriteAhead, Smooth, StopAccounted, AuditsAnswered, RowSkipped, Diagnosed, DiagnosticIs;
  }

  /** Every report run is one. */
  method HoldSession(id: string, parent: string, bindings: Bindings, w: World) returns (p: Session)
    requires WorldOk(w, Query(NamesOf(id), parent, bindings))
    ensures SessionOk(p) && p.id == id && p.query == Query(NamesOf(id), parent, bindings) && p.world == w
    ensures Reserved(p) <==> ReserveGood(p.query, w)
    ensures p.rc == OK <==> Smooth(p.query, w)
  {
    hide Agrees, WorldOk, TraceOk, Normal, Accepts, Smooth, TimeoutFamily, RejectedFamily, TimesOut, FirstGateFails,
         NamesOf, NamesOk, ReserveGood, WriteAhead, StopAccounted, AuditsAnswered, RowSkipped, Diagnosed,
         DiagnosticIs, NoneTwice, SessionOk;
    var q := Query(NamesOf(id), parent, bindings);
    NamesOfAreOk(id);
    var log, trace, attempts, rc := RunReport(q, w);
    p := Session(id, q, w, log, trace, attempts, rc);
    RunIsSession(p);
  }

  // ----- Interleaving the creates of many runs -----

  /** Each run has committed a prefix of its own log, and owns its id if its manifest is acknowledged. */
  ghost predicate Follows(s: System, sessions: seq<Session>) {
    && |s.runs| == |sessions|
    && forall r :: 0 <= r < |sessions| ==> RunFollows(s.runs[r], sessions[r])
  }

  ghost predicate RunFollows(run: RunState, p: Session) {
    && SessionOk(p) && run.id == p.id && run.log <= p.log
    && (run.reserved <==> run.log != [] && Reserved(p))
  }

  /** The create that run r issues next: the manifest with its answer, and records that are committed. */
  function NextCreate(s: System, sessions: seq<Session>, r: nat): Action
    requires |s.runs| == |sessions| && r < |sessions| && |s.runs[r].log| < |sessions[r].log|
  {
    var k := |s.runs[r].log|;
    Create(r, sessions[r].log[k], if k == 0 then sessions[r].world.manifest else Ack)
  }

  /** The namespace rule is not an assumption about runs of the writer: whatever a run creates next,
      it may create, and every create after the manifest finds its key unused. */
  lemma NextIsEnabled(s: System, sessions: seq<Session>, r: nat)
    requires Invariant(s) && Follows(s, sessions) && r < |sessions| && |s.runs[r].log| < |sessions[r].log|
    ensures Enabled(s, NextCreate(s, sessions, r))
    ensures s.runs[r].log != [] ==> KeyOf(s.runs[r].id, NextCreate(s, sessions, r).write.slot) !in s.store
  {
    hide Invariant, KeyOf, Agrees, Ending;
    assert RunFollows(s.runs[r], sessions[r]);
    var log, k := sessions[r].log, |s.runs[r].log|;
    if k > 0 {
      assert log[k].slot.Some?;
      forall i | 0 <= i < k
        ensures s.runs[r].log[i].slot != Some(log[k].slot.value)
      {
        assert s.runs[r].log[i] == log[i];
      }
      OwnKeyIsFree(s, r, log[k].slot.value);
    }
  }

  lemma ManifestAnswer(p: Session)
    requires SessionOk(p)
    ensures Reserved(p) ==> p.world.manifest.Ack?
    ensures !Reserved(p) ==> |p.log| <= 1 && (p.log != [] ==> !p.world.manifest.Ack?)
  {
    hide Agrees, Ending, NamesOf;
  }

  lemma StepFollows(s: System, sessions: seq<Session>, r: nat)
    requires Invariant(s) && Follows(s, sessions) && r < |sessions| && |s.runs[r].log| < |sessions[r].log|
    requires Enabled(s, NextCreate(s, sessions, r))
    ensures Invariant(Step(s, NextCreate(s, sessions, r))) && Follows(Step(s, NextCreate(s, sessions, r)), sessions)
  {
    hide Invariant, KeyOf, RunFollows, ValidWrite;
    var s' := Step(s, NextCreate(s, sessions, r));
    StepKeeps(s, NextCreate(s, sessions, r));
    RunStepFollows(s.runs[r], sessions[r]);
    forall t | 0 <= t < |sessions|
      ensures RunFollows(s'.runs[t], sessions[t])
    {
      assert RunFollows(s.runs[t], sessions[t]);
    }
  }

  lemma RunStepFollows(run: RunState, p: Session)
    requires RunFollows(run, p) && |run.log| < |p.log|
    ensures var k := |run.log|;
      var answer := if k == 0 then p.world.manifest else Ack;
      RunFollows(RunState(run.id, run.reserved || answer.Ack?, run.log + [p.log[k]]), p)
  {
    hide SessionOk, Reserved;
    ManifestAnswer(p);
    assert p.log[..|run.log| + 1] == p.log[..|run.log|] + [p.log[|run.log|]];
  }

  /** Runs of the writer that have not started. */
  function Waiting(sessions: seq<Session>): System {
    System(map[], seq(|sessions|, r requires 0 <= r < |sessions| => RunState(sessions[r].id, false, [])))
  }

  lemma WaitingHolds(sessions: seq<Session>)
    requires forall r :: 0 <= r < |sessions| ==> SessionOk(sessions[r])
    ensures Invariant(Waiting(sessions)) && Follows(Waiting(sessions), sessions)
  {
    hide SessionOk;
    forall id: string
      ensures ViewFor(Waiting(sessions).store, id) == EMPTY_VIEW
    {
      assert ViewFor(Waiting(sessions).store, id).p == EMPTY_VIEW.p;
    }
  }

  /** The system after this schedule of turns: a run with nothing left to create, or whose manifest
      meets an existing one, leaves it unchanged. */
  ghost function Interleaved(s: System, sessions: seq<Session>, schedule: seq<nat>): (t: System)
    requires Invariant(s) && Follows(s, sessions)
    ensures Invariant(t) && Follows(t, sessions)
    decreases |schedule|
  {
    if schedule == [] then s
    else
      var r := schedule[0];
      if r < |sessions| && |s.runs[r].log| < |sessions[r].log| then
        NextIsEnabled(s, sessions, r);
        StepFollows(s, sessions, r);
        Interleaved(Step(s, NextCreate(s, sessions, r)), sessions, schedule[1..])
      else Interleaved(s, sessions, schedule[1..])
  }

  lemma OwnerDecides(s: System, sessions: seq<Session>, id: string)
    requires Invariant(s) && Follows(s, sessions)
    ensures ViewFor(s.store, id) == EMPTY_VIEW
      || exists r :: 0 <= r < |sessions| && sessions[r].id == id
           && Agreement(ViewFor(s.store, id), sessions[r].query, sessions[r].world)
           && forall t :: 0 <= t < |sessions| && t != r && sessions[t].id == id ==> s.runs[t].log == []
  {
    hide Agreement, ViewFor, Ending, KeyOf;
    if ViewFor(s.store, id) != EMPTY_VIEW {
      assert Owner(s, id);
      var r :| 0 <= r < |s.runs| && s.runs[r].id == id && s.runs[r].log != [];
      assert RunOk(s, r) && RunFollows(s.runs[r], sessions[r]);
      assert Prefix(sessions[r].log, |s.runs[r].log|) == s.runs[r].log;
      forall t | 0 <= t < |sessions| && t != r && sessions[t].id == id
        ensures s.runs[t].log == []
      {
        assert RunFollows(s.runs[t], sessions[t]);
      }
    }
  }

  /** However many report runs share the store, in whatever order their creates fall and wherever
      they are interrupted: what the inspection reads under an id is nothing, or what exactly one
      run left there, and the inspection judges it as `Agreement` says of that run. */
  lemma InspectionOverRuns(sessions: seq<Session>, schedule: seq<nat>, id: string)
    requires forall r :: 0 <= r < |sessions| ==> SessionOk(sessions[r])
    ensures Invariant(Waiting(sessions)) && Follows(Waiting(sessions), sessions)
    ensures var s := Interleaved(Waiting(sessions), sessions, schedule);
      || ViewFor(s.store, id) == EMPTY_VIEW
      || exists r :: 0 <= r < |sessions| && sessions[r].id == id
           && Agreement(ViewFor(s.store, id), sessions[r].query, sessions[r].world)
           && forall t :: 0 <= t < |sessions| && t != r && sessions[t].id == id ==> s.runs[t].log == []
  {
    WaitingHolds(sessions);
    hide Invariant, Follows, Agreement, ViewFor, SessionOk;
    OwnerDecides(Interleaved(Waiting(sessions), sessions, schedule), sessions, id);
  }

  // ----- A run alone under its id gets everything stored -----

  ghost predicate Alone(sessions: seq<Session>, r: nat) {
    r < |sessions| && forall t :: 0 <= t < |sessions| && t != r ==> sessions[t].id != sessions[r].id
  }

  function Turns(schedule: seq<nat>, r: nat): nat {
    if schedule == [] then 0 else (if schedule[0] == r then 1 else 0) + Turns(schedule[1..], r)
  }

  /** Nobody else has written under the id of a run that is alone. */
  lemma FirstKeyIsFree(s: System, sessions: seq<Session>, r: nat)
    requires Invariant(s) && Follows(s, sessions) && Alone(sessions, r) && s.runs[r].log == []
    ensures KeyOf(s.runs[r].id, None) !in s.store
  {
    hide KeyOf, SessionOk;
    assert RunFollows(s.runs[r], sessions[r]);
    forall t | 0 <= t < |s.runs| && s.runs[t].id == s.runs[r].id
      ensures s.runs[t].log == []
    {
      assert RunFollows(s.runs[t], sessions[t]);
    }
    assert !Owner(s, s.runs[r].id);
    assert ViewFor(s.store, s.runs[r].id).manifest == Get(s.store, KeyOf(s.runs[r].id, None));
  }

  /** So each of its turns stores one more record. */
  lemma TurnStores(s: System, sessions: seq<Session>, r: nat)
    requires Invariant(s) && Follows(s, sessions) && Alone(sessions, r) && |s.runs[r].log| < |sessions[r].log|
    requires Enabled(s, NextCreate(s, sessions, r))
    ensures |Step(s, NextCreate(s, sessions, r)).runs[r].log| == |s.runs[r].log| + 1
  {
    NextIsEnabled(s, sessions, r);
    hide Invariant, KeyOf, SessionOk, Reserved;
    assert RunFollows(s.runs[r], sessions[r]);
    ManifestAnswer(sessions[r]);
    CommitsWithoutRefusal(sessions[r]);
    if s.runs[r].log == [] { FirstKeyIsFree(s, sessions, r); }
  }

  lemma CommitsWithoutRefusal(p: Session)
    requires SessionOk(p) && p.log != []
    ensures p.log[0].slot.None? && !p.world.manifest.Refused?
  {
    hide Agrees, Ending, NamesOf;
  }

  lemma {:induction false} TurnsStore(s: System, sessions: seq<Session>, schedule: seq<nat>, r: nat)
    requires Invariant(s) && Follows(s, sessions) && Alone(sessions, r)
    ensures var stored, all := |s.runs[r].log|, |sessions[r].log|;
      stored <= all && |Interleaved(s, sessions, schedule).runs[r].log|
                       == if stored + Turns(schedule, r) <= all then stored + Turns(schedule, r) else all
    decreases |schedule|
  {
    hide Invariant, KeyOf, SessionOk;
    assert RunFollows(s.runs[r], sessions[r]);
    if schedule != [] {
      var t := schedule[0];
      if t < |sessions| && |s.runs[t].log| < |sessions[t].log| {
        NextIsEnabled(s, sessions, t);
        StepFollows(s, sessions, t);
        if t == r { TurnStores(s, sessions, r); }
        TurnsStore(Step(s, NextCreate(s, sessions, t)), sessions, schedule[1..], r);
      } else {
        TurnsStore(s, sessions, schedule[1..], r);
      }
    }
  }

  /** A run that is alone under its id and gets its turns has its whole log in the store, in every
      interleaving with the runs of other ids: nothing else ever keeps it from its own keys. */
  lemma AloneCompletes(sessions: seq<Session>, schedule: seq<nat>, r: nat)
    requires forall t :: 0 <= t < |sessions| ==> SessionOk(sessions[t])
    requires Alone(sessions, r) && Turns(schedule, r) >= |sessions[r].log|
    ensures Invariant(Waiting(sessions)) && Follows(Waiting(sessions), sessions)
    ensures ValidLog(sessions[r].log)
    ensures ViewFor(Interleaved(Waiting(sessions), sessions, schedule).store, sessions[r].id) == ViewOf(sessions[r].log)
  {
    WaitingHolds(sessions);
    TurnsStore(Waiting(sessions), sessions, schedule, r);
    StoredWhole(Interleaved(Waiting(sessions), sessions, schedule), sessions, r);
  }

  lemma StoredWhole(s: System, sessions: seq<Session>, r: nat)
    requires Invariant(s) && Follows(s, sessions) && Alone(sessions, r) && |s.runs[r].log| == |sessions[r].log|
    ensures ValidLog(sessions[r].log) && ViewFor(s.store, sessions[r].id) == ViewOf(sessions[r].log)
  {
    hide KeyOf, SessionOk, ViewFor;
    assert RunFollows(s.runs[r], sessions[r]) && RunOk(s, r);
    assert s.runs[r].log == sessions[r].log;
    if s.runs[r].log == [] {
      forall t | 0 <= t < |s.runs| && s.runs[t].id == s.runs[r].id
        ensures s.runs[t].log == []
      {
        assert RunFollows(s.runs[t], sessions[t]);
      }
      assert !Owner(s, s.runs[r].id);
    }
  }
}
