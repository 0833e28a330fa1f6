/** Any sequence of compactions and crashes on one thread, and what recovery finds. */
module ContextSession {
  import opened Collections
  import opened ContextCut
  import opened ContextLineage
  import opened ContextStore
  import opened ContextCompaction

  /** Compact the current history, let the history grow first, or lose the process. */
  datatype Action = Compact(appended: seq<Event>, env: Env) | Crash

  /** Identifiers are generated once. */
  ghost predicate FreshIds(script: seq<Action>, used: set<string>) {
    && (forall i :: 0 <= i < |script| && script[i].Compact? ==> script[i].env.id !in used)
    && (forall i, j :: 0 <= i < j < |script| && script[i].Compact? && script[j].Compact? ==>
          script[i].env.id != script[j].env.id)
  }

  /** The history of the thread after the first i actions. */
  function HistoryAt(initial: History, script: seq<Action>, i: nat): History
    requires i <= |script|
  {
    if i == 0 then initial
    else HistoryAt(initial, script, i - 1) + (if script[i - 1].Compact? then script[i - 1].appended else [])
  }

  /** The compaction at i moves the head. */
  ghost predicate Moves(p: Policy, script: seq<Action>, initial: History, told: Lineage, i: nat)
    requires i < |script| && script[i].Compact?
  {
    HeadCommitted(p, HistoryAt(initial, script, i + 1), Latest(told), End(told), script[i].env)
  }

  /** What the context was told and what the store has committed, before and after action i. Both
      lineages and the code are determined: a compaction changes the committed one exactly if its
      puts move the head, and tells the context exactly if it succeeds; a recovery always succeeds
      and finds the committed one. */
  ghost predicate TraceStep(p: Policy, script: seq<Action>, initial: History, codes: seq<Rc>, told: seq<Lineage>,
                            committed: seq<Lineage>, i: nat)
  {
    && i < |script| && i < |codes| && i + 1 < |told| && i + 1 < |committed|
    && match script[i]
       case Compact(_, env) =>
         var events := HistoryAt(initial, script, i + 1);
         && CompactionCode(p, events, Latest(told[i]), End(told[i]), env, codes[i])
         && (if Moves(p, script, initial, told[i], i) then LinkOf(p, events, told[i], committed[i + 1])
             else committed[i + 1] == committed[i])
         && told[i + 1] == if codes[i] == OK then committed[i + 1] else told[i]
       case Crash => codes[i] == OK && committed[i + 1] == committed[i] && told[i + 1] == committed[i]
  }

  ghost predicate Trace(p: Policy, script: seq<Action>, initial: History, codes: seq<Rc>, told: seq<Lineage>,
                        committed: seq<Lineage>)
  {
    && |codes| <= |script| && |told| == |codes| + 1 && |committed| == |codes| + 1 && committed[0] == told[0]
    && forall i :: 0 <= i < |codes| ==> TraceStep(p, script, initial, codes, told, committed, i)
  }

  /** The compaction at j moved the head without being acknowledged, and no later one before i moved
      it again. */
  ghost predicate LastLost(p: Policy, script: seq<Action>, initial: History, codes: seq<Rc>, told: seq<Lineage>,
                           committed: seq<Lineage>, j: nat, i: nat)
  {
    && j < i <= |script| && i <= |codes| && i < |told| && i < |committed|
    && script[j].Compact? && Moves(p, script, initial, told[j], j) && codes[j] != OK
    && (forall k :: j < k < i ==> script[k].Compact? && !Moves(p, script, initial, told[k], k))
    && told[i] == told[j] && committed[i] == committed[j + 1]
  }

  /** So the two differ only by the last lost head. */
  lemma {:induction false} RecoveryFinds(p: Policy, script: seq<Action>, initial: History, codes: seq<Rc>,
                                         told: seq<Lineage>, committed: seq<Lineage>, i: nat)
    requires Trace(p, script, initial, codes, told, committed) && i <= |codes|
    ensures committed[i] == told[i]
      || exists j: nat :: LastLost(p, script, initial, codes, told, committed, j, i) && committed[i].Then?
                          && committed[i].before == told[i]
    decreases i
  {
    hide HeadCommitted, CompactionCode, LinkOf, HistoryAt;
    if i > 0 && committed[i] != told[i] {
      assert TraceStep(p, script, initial, codes, told, committed, i - 1);
      if Moves(p, script, initial, told[i - 1], i - 1) {
        LinkIsThen(p, HistoryAt(initial, script, i), told[i - 1], committed[i]);
        assert LastLost(p, script, initial, codes, told, committed, i - 1, i);
      } else {
        RecoveryFinds(p, script, initial, codes, told, committed, i - 1);
        SuccessMoves(p, HistoryAt(initial, script, i), told[i - 1], script[i - 1].env, codes[i - 1]);
        var j: nat :| LastLost(p, script, initial, codes, told, committed, j, i - 1) && committed[i - 1].Then?
                      && committed[i - 1].before == told[i - 1];
        assert LastLost(p, script, initial, codes, told, committed, j, i);
      }
    }
  }

  lemma LinkIsThen(p: Policy, events: History, before: Lineage, l: Lineage)
    requires LinkOf(p, events, before, l)
    ensures l.Then? && l.before == before
  {
  }

  lemma SuccessMoves(p: Policy, events: History, told: Lineage, env: Env, rc: Rc)
    requires CompactionCode(p, events, Latest(told), End(told), env, rc)
    ensures rc == OK ==> HeadCommitted(p, events, Latest(told), End(told), env)
  {
    hide PlanCode;
  }

  ghost predicate Live(c: Context, store: Store, thread: string, history: History)
    reads c, c.agent, c.store, store
  {
    && c.store == store && c.thread == thread && c.Valid() && c.Synced()
    && store.HistoryOf(thread) <= history
  }

  /** A new process: a fresh agent and context over the same store. Recovery always succeeds
      and continues from the committed lineage. */
  method Reopen(store: Store, thread: string, policy: Policy) returns (c: Context, rc: Rc)
    requires store.Valid() && PolicyValid(policy)
    ensures rc == OK && fresh(c) && fresh(c.agent) && c.store == store && c.thread == thread && c.policy == policy
    ensures c.Valid() && c.Synced() && c.lineage == store.Committed(thread)
  {
    var agent := new Agent();
    c := new Context(store, agent, thread, policy);
    rc := c.LoadHead(OK);
    if thread !in store.heads {
      assert c.lineage == Root;
    }
  }

  /** Creating a context: a bad policy or an unnamed thread is refused, and everything else recovers. */
  method Open(store: Store, thread: string, policy: Policy) returns (c: Context?, rc: Rc)
    requires store.Valid()
    ensures rc == OK <==> PolicyValid(policy) && thread != ""
    ensures rc != OK ==> c == null && rc == EINVAL
    ensures rc == OK ==>
      && c != null && fresh(c) && fresh(c.agent) && c.store == store && c.thread == thread && c.policy == policy
      && c.Valid() && c.Synced() && c.lineage == store.Committed(thread)
  {
    var ok := CheckPolicy(policy);
    if !ok || thread == "" { return null, EINVAL; }
    c, rc := Reopen(store, thread, policy);
  }

  lemma TraceBegins(p: Policy, script: seq<Action>, initial: History, found: Lineage)
    ensures Trace(p, script, initial, [], [found], [found])
  {
  }

  lemma TraceGrows(p: Policy, script: seq<Action>, initial: History, codes: seq<Rc>, told: seq<Lineage>,
                   committed: seq<Lineage>, rc: Rc, live: Lineage, now: Lineage)
    requires Trace(p, script, initial, codes, told, committed) && |codes| < |script|
    requires TraceStep(p, script, initial, codes + [rc], told + [live], committed + [now], |codes|)
    ensures Trace(p, script, initial, codes + [rc], told + [live], committed + [now])
  {
    hide HeadCommitted, CompactionCode, LinkOf, HistoryAt;
    forall i | 0 <= i < |codes|
      ensures TraceStep(p, script, initial, codes + [rc], told + [live], committed + [now], i)
    {
      assert TraceStep(p, script, initial, codes, told, committed, i);
    }
  }

  lemma CompactTraced(p: Policy, script: seq<Action>, initial: History, codes: seq<Rc>, told: seq<Lineage>,
                      committed: seq<Lineage>, rc: Rc, live: Lineage, now: Lineage)
    requires Trace(p, script, initial, codes, told, committed) && |codes| < |script| && script[|codes|].Compact?
    requires var events, was, env := HistoryAt(initial, script, |codes| + 1), told[|codes|], script[|codes|].env;
      && CompactionCode(p, events, Latest(was), End(was), env, rc)
      && (HeadCommitted(p, events, Latest(was), End(was), env) ==> LinkOf(p, events, was, now))
      && (!HeadCommitted(p, events, Latest(was), End(was), env) ==> now == committed[|codes|])
    requires live == if rc == OK then now else told[|codes|]
    ensures Trace(p, script, initial, codes + [rc], told + [live], committed + [now])
  {
    hide HeadCommitted, CompactionCode, LinkOf, HistoryAt;
    TraceGrows(p, script, initial, codes, told, committed, rc, live, now);
  }

  /** One action. */
  method Act(c0: Context, store: Store, thread: string, action: Action, history0: History)
    returns (c: Context, rc: Rc, history: History)
    requires Live(c0, store, thread, history0)
    requires action.Compact? ==> action.env.id !in store.compactions
    modifies c0, c0.agent, store
    ensures Live(c, store, thread, history) && c.policy == c0.policy
    ensures (c == c0 && c.agent == c0.agent) || (fresh(c) && fresh(c.agent))
    ensures history == if action.Compact? then history0 + action.appended else history0
    ensures action.Compact? ==>
      var was, env := old(c0.lineage), action.env;
      && CompactionCode(c0.policy, history, Latest(was), End(was), env, rc)
      && (HeadCommitted(c0.policy, history, Latest(was), End(was), env) ==>
            LinkOf(c0.policy, history, was, store.Committed(thread)))
      && (!HeadCommitted(c0.policy, history, Latest(was), End(was), env) ==>
            store.Committed(thread) == old(store.Committed(thread)))
      && c.lineage == (if rc == OK then store.Committed(thread) else was)
      && store.compactions.Keys <= old(store.compactions.Keys) + {env.id}
    ensures action.Crash? ==>
      && rc == OK && c.lineage == store.Committed(thread) == old(store.Committed(thread))
      && store.compactions == old(store.compactions)
    ensures store.heads - {thread} == old(store.heads) - {thread}
  {
    hide Store.Valid, Store.Committed, CutTaken, Faithful, LineageKept, CompactionCode, HeadCommitted, LinkOf,
         Succeeds;
    match action {
      case Compact(appended, env) =>
        c, history := c0, history0 + appended;
        rc := c.CompactOnce(history, env);
      case Crash =>
        history := history0;
        c, rc := Reopen(store, thread, c0.policy);
    }
  }

  /** Runs any script from any valid store. What the context was told and what the store has committed
      follow `TraceStep` exactly, whatever the puts and the crashes are; no event is lost or summarised
      twice, and no tool exchange is split. */
  method Session(store: Store, thread: string, policy: Policy, script: seq<Action>, initial: History)
    returns (c: Context, history: History, codes: seq<Rc>, ghost told: seq<Lineage>, ghost committed: seq<Lineage>)
    requires store.Valid() && PolicyValid(policy) && store.HistoryOf(thread) <= initial
    requires FreshIds(script, store.compactions.Keys)
    modifies store
    ensures Live(c, store, thread, history) && history == HistoryAt(initial, script, |script|)
    ensures |codes| == |script| && Trace(policy, script, initial, codes, told, committed)
    ensures told[0] == old(store.Committed(thread))
    ensures told[|script|] == c.lineage && committed[|script|] == store.Committed(thread)
    ensures store.heads - {thread} == old(store.heads) - {thread}
    ensures c.agent.projection == c.Published()
    ensures c.eventStart <= |history| && Sources(c.lineage) + history[c.eventStart..] == history
    ensures forall e :: 0 <= e < |history| ==> Summarised(c.lineage, e) == if e < c.eventStart then 1 else 0
    ensures Exchanges(history) ==> NoneSplit(history, c.eventStart)
  {
    hide Store.Valid, Store.Committed, CutTaken, Faithful, NoneBetween, SuffixTokens, Boundary, Links, Exchanges,
         NoneSplit, Sources, Summarised, Trace, LineageKept, CompactionCode, HeadCommitted, LinkOf, Succeeds;
    var rc;
    c, rc := Reopen(store, thread, policy);
    history, codes, told, committed := initial, [], [c.lineage], [c.lineage];
    TraceBegins(policy, script, initial, c.lineage);
    for i := 0 to |script|
      invariant fresh(c) && fresh(c.agent) && Live(c, store, thread, history) && c.policy == policy
      invariant |codes| == i && |told| == i + 1 && told[i] == c.lineage && told[0] == old(store.Committed(thread))
      invariant |committed| == i + 1 && committed[i] == store.Committed(thread)
      invariant history == HistoryAt(initial, script, i)
      invariant forall k :: i <= k < |script| && script[k].Compact? ==> script[k].env.id !in store.compactions
      invariant Trace(policy, script, initial, codes, told, committed)
      invariant store.heads - {thread} == old(store.heads) - {thread}
    {
      c, rc, history := Act(c, store, thread, script[i], history);
      match script[i] {
        case Compact(_, _) =>
          CompactTraced(policy, script, initial, codes, told, committed, rc, c.lineage, store.Committed(thread));
        case Crash =>
          CrashTraced(policy, script, initial, codes, told, committed);
      }
      codes, told, committed := codes + [rc], told + [c.lineage], committed + [store.Committed(thread)];
    }
    Conserved(c.lineage, store.HistoryOf(thread), history);
  }

  lemma CrashTraced(p: Policy, script: seq<Action>, initial: History, codes: seq<Rc>, told: seq<Lineage>,
                    committed: seq<Lineage>)
    requires Trace(p, script, initial, codes, told, committed) && |codes| < |script| && script[|codes|].Crash?
    ensures var found := committed[|codes|];
      Trace(p, script, initial, codes + [OK], told + [found], committed + [found])
  {
    hide HeadCommitted, CompactionCode, LinkOf, HistoryAt;
    TraceGrows(p, script, initial, codes, told, committed, OK, committed[|codes|], committed[|codes|]);
  }

  /** Every tool call before the cut has its results before the cut. */
  ghost predicate NoneSplit(history: History, cut: nat)
    requires cut <= |history|
  {
    forall m :: 0 <= m < cut && CallBearing(history[m]) ==>
      exists r :: m < r < cut && history[r].ToolResults? && forall k :: m < k < r ==> !Actor(history[k])
  }

  lemma Conserved(l: Lineage, known: History, history: History)
    requires Faithful(l, known) && known <= history
    ensures End(l) <= |history| && Sources(l) + history[End(l)..] == history
    ensures forall e :: 0 <= e < |history| ==> Summarised(l, e) == if e < End(l) then 1 else 0
    ensures Exchanges(history) ==> NoneSplit(history, End(l))
  {
    FaithfulGrows(l, known, history);
    NothingLost(l, history);
    forall e | 0 <= e < |history|
      ensures Summarised(l, e) == if e < End(l) then 1 else 0
    {
      SummarisedOnce(l, history, e);
    }
    hide Faithful, Summarised, Sources;
    if Exchanges(history) {
      forall m | 0 <= m < End(l) && CallBearing(history[m])
        ensures exists r :: m < r < End(l) && history[r].ToolResults? && forall k :: m < k < r ==> !Actor(history[k])
      {
        LineageKeepsExchanges(l, history, m);
      }
    }
  }

  // ----- One session with an acknowledged compaction and a lost head -----

  const ONE_TOKEN := Policy(10, 1, 5, 1, 1, 1, 1, (_: Value) => Some(1), (_: Source, _: nat) => Some(Summary(1, "s")))

  predicate Remarks(events: History) {
    forall i :: 0 <= i < |events| ==> events[i] == Model(0, "m")
  }

  /** With one token for everything, two events past the start are enough for a compaction. */
  lemma OneTokenPlans(events: History, summary: Option<Summary>, start: nat)
    requires Remarks(events) && start + 2 == |events| <= 10
    ensures PlanCode(ONE_TOKEN, events, summary, start, OK)
  {
    var est, source := SegmentEstimate(ONE_TOKEN), SourceEstimate(ONE_TOKEN, events, summary, start);
    assert forall b: nat :: 0 < b <= |events| ==> Boundary(events, b);
    assert SegmentEnd(events, start + 1) == start + 1 && SegmentEnd(events, start + 2) == start + 2;
    assert SuffixTokens(est, events, start + 2) == 0 && SuffixTokens(est, events, start + 1) == 1;
    assert SuffixTokens(est, events, start) == 2 && Estimated(est, events, start + 1);
    assert Boundary(events, start + 1);
    assert !NoneBetween(events, start, |events|);
    assert Stuck(est, events, start, 1, start, start + 1);
    assert CutResultIs(est, events, start, 1, Cut(start + 1));
    assert LimitResultIs(source, events, start, start + 1, 1, Limited(start + 1, 1));
    assert SourceCode(ONE_TOKEN, events, summary, start, Limited(start + 1, 1), OK);
  }

  const LOST_HEAD: seq<Action> := [
    Compact([], Env(Built, "1", Acked, Acked)),
    Compact([Model(0, "m")], Env(Built, "2", Acked, Unacknowledged)),
    Crash]

  /** In such a history a compaction with good answers yields one more link, on one more event. */
  lemma OneTokenStep(script: seq<Action>, initial: History, codes: seq<Rc>, told: seq<Lineage>,
                     committed: seq<Lineage>, i: nat)
    requires TraceStep(ONE_TOKEN, script, initial, codes, told, committed, i) && script[i].Compact?
    requires Remarks(HistoryAt(initial, script, i + 1)) && |HistoryAt(initial, script, i + 1)| == End(told[i]) + 2 <= 10
    requires script[i].env.build.Built? && script[i].env.putPrepared.Acked? && !script[i].env.putHead.Failed?
    ensures codes[i] == if script[i].env.putHead.Acked? then OK else EIO
    ensures committed[i + 1].Then? && committed[i + 1].before == told[i] && End(committed[i + 1]) == End(told[i]) + 1
    ensures told[i + 1] == if codes[i] == OK then committed[i + 1] else told[i]
  {
    hide HistoryAt, PlanCode, Remarks;
    var events := HistoryAt(initial, script, i + 1);
    OneTokenPlans(events, Latest(told[i]), End(told[i]));
    TakenInside(ONE_TOKEN, events, told[i], committed[i + 1]);
  }

  lemma TakenInside(p: Policy, events: History, before: Lineage, l: Lineage)
    requires LinkOf(p, events, before, l)
    ensures l.Then? && l.before == before && End(before) < End(l) < |events|
  {
  }

  /** The first compaction succeeds, the second one loses its head, and the recovery finds it. */
  method LostHeadSession() returns (codes: seq<Rc>, ghost told: seq<Lineage>, ghost committed: seq<Lineage>)
    ensures codes == [OK, EIO, OK] && |told| == 4 && |committed| == 4
    ensures told[0] == Root && told[1].Then? && told[1].before == Root
    ensures told[2] == told[1] && told[3].Then? && told[3].before == told[1] && told[3] == committed[2]
  {
    hide TraceStep, CutTaken, PlanCode, LinkOf, CompactionCode, Exchanges, NoneSplit, Sources, Summarised, HistoryAt;
    var store := new Store((_: Source) => "h");
    var initial := [Model(0, "m"), Model(0, "m")];
    var c, history;
    c, history, codes, told, committed := Session(store, "t", ONE_TOKEN, LOST_HEAD, initial);
    LostHeadTrace(initial, codes, told, committed);
  }

  lemma LostHeadTrace(initial: History, codes: seq<Rc>, told: seq<Lineage>, committed: seq<Lineage>)
    requires initial == [Model(0, "m"), Model(0, "m")] && |codes| == 3 && told != [] && told[0] == Root
    requires Trace(ONE_TOKEN, LOST_HEAD, initial, codes, told, committed)
    ensures codes == [OK, EIO, OK] && told[1].Then? && told[1].before == Root
    ensures told[2] == told[1] && told[3].Then? && told[3].before == told[1] && told[3] == committed[2]
  {
    hide CutTaken, PlanCode, LinkOf, CompactionCode, HistoryAt, HeadCommitted, Remarks;
    LostHeadHistory(initial);
    assert TraceStep(ONE_TOKEN, LOST_HEAD, initial, codes, told, committed, 0);
    OneTokenStep(LOST_HEAD, initial, codes, told, committed, 0);
    assert TraceStep(ONE_TOKEN, LOST_HEAD, initial, codes, told, committed, 1);
    OneTokenStep(LOST_HEAD, initial, codes, told, committed, 1);
    assert TraceStep(ONE_TOKEN, LOST_HEAD, initial, codes, told, committed, 2);
  }

  lemma LostHeadHistory(initial: History)
    requires initial == [Model(0, "m"), Model(0, "m")]
    ensures Remarks(HistoryAt(initial, LOST_HEAD, 1)) && |HistoryAt(initial, LOST_HEAD, 1)| == 2
    ensures Remarks(HistoryAt(initial, LOST_HEAD, 2)) && |HistoryAt(initial, LOST_HEAD, 2)| == 3
  {
  }
}
