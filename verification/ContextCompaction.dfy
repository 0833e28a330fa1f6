/** The live context of one thread: recovery, one compaction, and preparation of a request. */
module ContextCompaction {
  import opened Collections
  import opened ContextCut
  import opened ContextLineage
  import opened ContextStore

  /** The token estimate of an event segment, and of the source that a cut would summarise. */
  function SegmentEstimate(p: Policy): Estimator {
    (s: seq<Event>) => p.estimate(SegmentValue(s))
  }

  function SourceEstimate(p: Policy, events: History, summary: Option<Summary>, start: nat): SourceEstimator {
    (b: nat) => if start <= b <= |events| then p.estimate(SourceValue(Source(summary, events[start..b]))) else None
  }

  /** The cut that a compaction takes: within the best cut for the retained suffix, the
      furthest boundary up to which every source fits the summariser's input budget. */
  ghost predicate CutTaken(p: Policy, events: History, summary: Option<Summary>, start: nat, cut: nat) {
    exists desired: nat, tokens: U64 ::
      && BestCut(SegmentEstimate(p), events, start, p.retain, desired)
      && LimitResultIs(SourceEstimate(p, events, summary, start), events, start, desired, p.maxSummaryInput,
                       Limited(cut, tokens))
  }

  // ----- The exact result code of a plan -----

  /** The checks on the chosen source and on its summary. */
  predicate SummaryCode(p: Policy, source: Source, start: nat, cut: nat, tokens: nat, rc: Rc) {
    if start > MAX_EXACT || cut > MAX_EXACT || tokens > MAX_EXACT then rc == ERANGE
    else
      var made := p.summarize(source, p.maxSummary);
      if made.None? || made.value.version != SCHEMA_VERSION then rc == EPROTO
      else
        var size := p.estimate(SummaryValue(made.value));
        if size.None? then rc == EIO else rc == if size.value > p.maxSummary then EMSGSIZE else OK
  }

  ghost predicate SourceCode(p: Policy, events: History, summary: Option<Summary>, start: nat, r: LimitResult, rc: Rc) {
    match r
    case TooLarge => rc == EMSGSIZE
    case SourceEstimateFailed => rc == EIO
    case Limited(cut, tokens) =>
      && start <= cut <= |events|
      && SummaryCode(p, Source(summary, events[start..cut]), start, cut, tokens, rc)
  }

  ghost predicate CutCode(p: Policy, events: History, summary: Option<Summary>, start: nat, r: CutResult, rc: Rc) {
    match r
    case NothingToCut => rc == ENOENT
    case EstimateFailed => rc == EIO
    case TokensOverflow => rc == ERANGE
    case Cut(desired) =>
      exists l :: LimitResultIs(SourceEstimate(p, events, summary, start), events, start, desired, p.maxSummaryInput, l)
                  && SourceCode(p, events, summary, start, l, rc)
  }

  /** The code of a plan for this history, in terms of the history, the policy and the projection alone. */
  ghost predicate PlanCode(p: Policy, events: History, summary: Option<Summary>, start: nat, rc: Rc) {
    exists r :: CutResultIs(SegmentEstimate(p), events, start, p.retain, r) && CutCode(p, events, summary, start, r, rc)
  }

  /** So at most one code is a plan's code. */
  lemma PlanCodeOnce(p: Policy, events: History, summary: Option<Summary>, start: nat, rc: Rc, rc': Rc)
    requires PlanCode(p, events, summary, start, rc) && PlanCode(p, events, summary, start, rc')
    ensures rc == rc'
  {
    hide CutResultIs, CutCode;
    var r :| CutResultIs(SegmentEstimate(p), events, start, p.retain, r) && CutCode(p, events, summary, start, r, rc);
    var r' :| CutResultIs(SegmentEstimate(p), events, start, p.retain, r')
              && CutCode(p, events, summary, start, r', rc');
    CutResultOnce(SegmentEstimate(p), events, start, p.retain, r, r');
    CutCodeOnce(p, events, summary, start, r, rc, rc');
  }

  lemma PlanCodeExact(p: Policy, events: History, summary: Option<Summary>, start: nat)
    ensures forall rc, rc' :: PlanCode(p, events, summary, start, rc) && PlanCode(p, events, summary, start, rc') ==>
      rc == rc'
  {
    forall rc, rc' | PlanCode(p, events, summary, start, rc) && PlanCode(p, events, summary, start, rc')
      ensures rc == rc'
    {
      PlanCodeOnce(p, events, summary, start, rc, rc');
    }
  }

  lemma PlanCodeIs(p: Policy, events: History, summary: Option<Summary>, start: nat, r: CutResult, rc: Rc)
    requires CutResultIs(SegmentEstimate(p), events, start, p.retain, r) && CutCode(p, events, summary, start, r, rc)
    ensures PlanCode(p, events, summary, start, rc)
  {
    hide CutResultIs, CutCode;
  }

  lemma BestCutInside(est: Estimator, events: History, start: nat, budget: nat, cut: nat)
    requires BestCut(est, events, start, budget, cut)
    ensures start < cut < |events| && Boundary(events, cut)
  {
  }

  lemma TakenWithin(p: Policy, events: History, summary: Option<Summary>, start: nat, desired: nat, cut: nat,
                    tokens: U64)
    requires BestCut(SegmentEstimate(p), events, start, p.retain, desired)
    requires LimitResultIs(SourceEstimate(p, events, summary, start), events, start, desired, p.maxSummaryInput,
                           Limited(cut, tokens))
    ensures CutTaken(p, events, summary, start, cut)
  {
    hide BestCut, LimitResultIs;
  }

  lemma EarlyCode(p: Policy, events: History, summary: Option<Summary>, start: nat, r: CutResult, rc: Rc)
    requires !r.Cut? && rc == if r.NothingToCut? then ENOENT else if r.EstimateFailed? then EIO else ERANGE
    ensures CutCode(p, events, summary, start, r, rc)
  {
  }

  lemma CutCodeOnce(p: Policy, events: History, summary: Option<Summary>, start: nat, r: CutResult, rc: Rc, rc': Rc)
    requires CutCode(p, events, summary, start, r, rc) && CutCode(p, events, summary, start, r, rc')
    ensures rc == rc'
  {
    hide LimitResultIs;
    if r.Cut? {
      var est := SourceEstimate(p, events, summary, start);
      var l :| LimitResultIs(est, events, start, r.at, p.maxSummaryInput, l)
               && SourceCode(p, events, summary, start, l, rc);
      var l' :| LimitResultIs(est, events, start, r.at, p.maxSummaryInput, l')
                && SourceCode(p, events, summary, start, l', rc');
      LimitResultOnce(est, events, start, r.at, p.maxSummaryInput, l, l');
    }
  }

  /** A compaction that reaches its puts, and one that succeeds. */
  ghost predicate Puts(p: Policy, events: History, summary: Option<Summary>, start: nat, env: Env) {
    PlanCode(p, events, summary, start, OK) && env.build.Built?
  }

  ghost predicate HeadCommitted(p: Policy, events: History, summary: Option<Summary>, start: nat, env: Env) {
    Puts(p, events, summary, start, env) && HeadMoves(env.putPrepared, env.putHead)
  }

  ghost predicate Succeeds(p: Policy, events: History, summary: Option<Summary>, start: nat, env: Env) {
    Puts(p, events, summary, start, env) && env.putPrepared.Acked? && env.putHead.Acked?
  }

  /** The code of a compaction. */
  ghost predicate CompactionCode(p: Policy, events: History, summary: Option<Summary>, start: nat, env: Env, rc: Rc) {
    if !PlanCode(p, events, summary, start, OK) then rc != OK && PlanCode(p, events, summary, start, rc)
    else if !env.build.Built? then rc == if env.build.NoMemory? then ENOMEM else EIO
    else rc == if env.putPrepared.Acked? && env.putHead.Acked? then OK else EIO
  }

  lemma NothingExactly(p: Policy, events: History, summary: Option<Summary>, start: nat, env: Env, rc: Rc)
    requires CompactionCode(p, events, summary, start, env, rc)
    ensures rc == ENOENT <==> PlanCode(p, events, summary, start, ENOENT)
  {
    hide PlanCode;
    PlanCodeExact(p, events, summary, start);
  }

  /** The link that a compaction of this history puts on a lineage. */
  ghost predicate LinkOf(p: Policy, events: History, before: Lineage, l: Lineage) {
    && l.Then? && l.before == before && l.start == End(before) && l.start < l.end <= |events|
    && CutTaken(p, events, Latest(before), End(before), l.end)
    && l.source == Source(Latest(before), events[l.start..l.end])
    && p.summarize(l.source, p.maxSummary) == Some(l.summary)
  }

  datatype Plan = Plan(rc: Rc, cut: nat, tokens: U64, source: Source, summary: Summary)

  class Context {
    const store: Store
    const agent: Agent
    const thread: string
    const policy: Policy
    var summary: Option<Summary>
    var head: Option<Head>
    var eventStart: nat
    ghost var lineage: Lineage

    /** The projection that the context's own fields describe. */
    function Published(): Option<Projection>
      reads this
    {
      if summary.None? then None else Some(Projection(summary.value, eventStart))
    }

    ghost predicate Valid()
      reads this, store
    {
      && store.Valid() && PolicyValid(policy)
      && Faithful(lineage, store.HistoryOf(thread))
      && summary == Latest(lineage) && eventStart == End(lineage)
    }

    ghost predicate Synced()
      reads this, agent
    {
      agent.projection == Published()
    }

    /** A context before recovery. */
    constructor (store: Store, agent: Agent, thread: string, policy: Policy)
      requires store.Valid() && PolicyValid(policy)
      ensures Valid() && this.store == store && this.agent == agent && this.thread == thread && this.policy == policy
      ensures summary == None && head == None && eventStart == 0 && lineage == Root
    {
      this.store, this.agent, this.thread, this.policy := store, agent, thread, policy;
      summary, head, eventStart, lineage := None, None, 0, Root;
    }

    /** A committed head of this thread, in range. */
    ghost predicate HeadSound(h: Head) {
      h.thread == thread && h.status == CommittedStatus && h.end <= 9007199254740991
    }

    /** The head's record is there, prepared for the same thread, up to the same event, under the same
        hash, which is that of its source, with a summary of the known version. */
    ghost predicate RecordSound(h: Head)
      reads store
    {
      && h.compaction in store.compactions
      && var c := store.compactions[h.compaction];
         && c.thread == thread && c.status == PreparedStatus && c.end == h.end && c.hash == h.hash
         && c.hash == store.hash(c.source) && c.summary.version == 1
    }

    /** The one head that names this thread. */
    ghost predicate SoleHead(k: string)
      reads store
    {
      && k in store.heads && store.heads[k].thread == thread
      && forall l :: l in store.heads && store.heads[l].thread == thread ==> l == k
    }

    /** Under a valid store every committed head passes every check. */
    lemma HeadsRecover()
      requires store.Valid()
      ensures forall k :: k in store.heads ==> (store.heads[k].thread == thread <==> k == thread)
      ensures thread in store.heads ==> SoleHead(thread) && HeadSound(store.heads[thread])
      ensures thread in store.heads ==> RecordSound(store.heads[thread]) && store.Committed(thread).Then?
    {
    }

    lemma CommittedFits()
      requires store.Valid() && thread in store.heads
      ensures store.heads[thread].compaction in store.compactions
      ensures var c := store.compactions[store.heads[thread].compaction];
        && Faithful(store.Committed(thread), store.HistoryOf(thread))
        && Latest(store.Committed(thread)) == Some(c.summary) && End(store.Committed(thread)) == store.heads[thread].end
    {
      hide Faithful;
    }

    lemma HeadsKnown()
      requires store.Valid()
      ensures store.lineage.Keys == store.compactions.Keys
      ensures thread in store.heads ==> store.heads[thread].compaction in store.lineage
    {
    }

    /** Reads the one head of this thread and checks it with its record, whatever the store holds:
        success means no head at all, or a sole one that is sound with a sound record; a record that is
        not there is an input error, and everything else is corrupt. */
    method FindHead() returns (rc: Rc, found: Option<Head>)
      ensures rc == OK || rc == EIO || rc == EPROTO
      ensures rc == OK && found.None? <==> forall k :: k in store.heads ==> store.heads[k].thread != thread
      ensures found.Some? ==> rc == OK
      ensures forall k :: SoleHead(k) ==>
        && (rc == OK <==> HeadSound(store.heads[k]) && RecordSound(store.heads[k]))
        && (rc == OK ==> found == Some(store.heads[k]))
        && (rc == EIO <==> HeadSound(store.heads[k]) && store.heads[k].compaction !in store.compactions)
      ensures found.Some? || rc == EIO ==> exists k :: SoleHead(k)
    {
      var rows := set k | k in store.heads && store.heads[k].thread == thread;
      forall k | SoleHead(k)
        ensures |rows| == 1
      {
        RowOfSole(rows, k);
      }
      assert forall k :: k in store.heads && store.heads[k].thread == thread ==> k in rows;
      if |rows| == 0 { return OK, None; }
      if |rows| != 1 { return EPROTO, None; }
      var k :| k in rows;
      OneRow(rows, k);
      var h := store.heads[k];
      if h.status != CommittedStatus || h.end > MAX_EXACT { return EPROTO, None; }
      if h.compaction !in store.compactions { return EIO, None; }
      var c := store.compactions[h.compaction];
      if c.hash != h.hash || c.thread != thread || c.status != PreparedStatus || c.end > MAX_EXACT || c.end != h.end
         || store.hash(c.source) != c.hash || c.summary.version != SCHEMA_VERSION { return EPROTO, None; }
      return OK, Some(h);
    }

    lemma OneRow(rows: set<string>, k: string)
      requires rows == (set l | l in store.heads && store.heads[l].thread == thread) && |rows| == 1 && k in rows
      ensures SoleHead(k)
    {
      forall l | l in store.heads && store.heads[l].thread == thread
        ensures l == k
      {
        assert l in rows && |rows - {k}| == 0;
      }
    }

    lemma RowOfSole(rows: set<string>, k: string)
      requires rows == (set l | l in store.heads && store.heads[l].thread == thread) && SoleHead(k)
      ensures |rows| == 1
    {
      assert rows == {k};
    }

    /** Reads back the committed compaction. Unless reading or allocation itself fails,
        recovery succeeds and yields exactly the summary and start of the committed head. */
    method LoadHead(io: Rc) returns (rc: Rc)
      requires Valid() && summary == None && eventStart == 0 && lineage == Root
      modifies this, agent
      ensures Valid() && (rc == OK <==> io == OK)
      ensures rc == OK ==> lineage == store.Committed(thread)
      ensures rc == OK && thread in store.heads ==> Synced() && head == Some(store.heads[thread])
      ensures rc == OK && thread !in store.heads ==> agent.projection == old(agent.projection) && head == old(head)
      ensures rc != OK ==> summary == None && eventStart == 0 && lineage == Root && agent.projection == None
    {
      HeadsRecover();
      if thread in store.heads { CommittedFits(); }
      hide Store.Valid, Faithful, SoleHead, HeadSound, RecordSound;
      var found: Option<Head> := None;
      rc := io;
      if rc == OK { rc, found := FindHead(); }
      if rc != OK {
        head, agent.projection := None, None;
        return;
      }
      if found.None? { return; }
      head := found;
      summary := Some(store.compactions[found.value.compaction].summary);
      eventStart := found.value.end;
      agent.projection := Some(Projection(summary.value, eventStart));
      lineage := store.Committed(thread);
    }

    /** Everything before the first put: the cut, its source, the summary and their budgets. Each code
        is returned exactly for the reason that `PlanCode` gives. */
    method Propose(events: History) returns (plan: Plan)
      ensures PlanCode(policy, events, summary, eventStart, plan.rc)
      ensures plan.rc == OK ==>
        && Continues(events, plan) && CutTaken(policy, events, summary, eventStart, plan.cut)
        && policy.estimate(SourceValue(plan.source)) == Some(plan.tokens)
        && policy.summarize(plan.source, policy.maxSummary) == Some(plan.summary)
        && policy.estimate(SummaryValue(plan.summary)).Some?
        && policy.estimate(SummaryValue(plan.summary)).value <= policy.maxSummary
    {
      hide CutResultIs, CutCode, LimitResultIs, BestCut, CutTaken, PlanCode, Boundary;
      plan := Plan(OK, 0, 0, Source(None, []), Summary(0, ""));
      var chosen := ChooseCut(SegmentEstimate(policy), events, eventStart, policy.retain);
      match chosen {
        case Cut(desired) =>
          BestCutInside(SegmentEstimate(policy), events, eventStart, policy.retain, desired);
          plan := Draft(events, desired);
          if plan.rc == OK { TakenWithin(policy, events, summary, eventStart, desired, plan.cut, plan.tokens); }
        case _ =>
          plan := plan.(rc := if chosen.NothingToCut? then ENOENT else if chosen.EstimateFailed? then EIO else ERANGE);
          EarlyCode(policy, events, summary, eventStart, chosen, plan.rc);
      }
      PlanCodeIs(policy, events, summary, eventStart, chosen, plan.rc);
    }

    /** The source of the desired cut and its summary. */
    method Draft(events: History, desired: nat) returns (plan: Plan)
      requires eventStart < desired <= |events| && Boundary(events, desired)
      ensures CutCode(policy, events, summary, eventStart, Cut(desired), plan.rc)
      ensures plan.rc == OK ==>
        && Continues(events, plan) && policy.estimate(SourceValue(plan.source)) == Some(plan.tokens)
        && LimitResultIs(SourceEstimate(policy, events, summary, eventStart), events, eventStart, desired,
                         policy.maxSummaryInput, Limited(plan.cut, plan.tokens))
        && policy.summarize(plan.source, policy.maxSummary) == Some(plan.summary)
        && policy.estimate(SummaryValue(plan.summary)).Some?
        && policy.estimate(SummaryValue(plan.summary)).value <= policy.maxSummary
    {
      plan := Plan(OK, 0, 0, Source(None, []), Summary(0, ""));
      var limited := LimitSource(SourceEstimate(policy, events, summary, eventStart), events, eventStart, desired,
                                 policy.maxSummaryInput);
      match limited {
        case TooLarge => plan := plan.(rc := EMSGSIZE);
        case SourceEstimateFailed => plan := plan.(rc := EIO);
        case Limited(cut, tokens) => plan := Summarise(events, cut, tokens);
      }
      hide LimitResultIs;
      assert SourceCode(policy, events, summary, eventStart, limited, plan.rc);
    }

    method Summarise(events: History, cut: nat, tokens: U64) returns (plan: Plan)
      requires eventStart < cut <= |events| && Boundary(events, cut)
      ensures SummaryCode(policy, Source(summary, events[eventStart..cut]), eventStart, cut, tokens, plan.rc)
      ensures plan.rc == OK ==>
        && Continues(events, plan) && plan.cut == cut && plan.tokens == tokens
        && policy.summarize(plan.source, policy.maxSummary) == Some(plan.summary)
        && policy.estimate(SummaryValue(plan.summary)).Some?
        && policy.estimate(SummaryValue(plan.summary)).value <= policy.maxSummary
    {
      plan := Plan(OK, cut, tokens, Source(summary, events[eventStart..cut]), Summary(0, ""));
      if eventStart > MAX_EXACT || cut > MAX_EXACT || tokens > MAX_EXACT { return plan.(rc := ERANGE); }
      var made := policy.summarize(plan.source, policy.maxSummary);
      if made.None? || made.value.version != SCHEMA_VERSION { return plan.(rc := EPROTO); }
      var size := policy.estimate(SummaryValue(made.value));
      if size.None? { return plan.(rc := EIO); }
      if size.value > policy.maxSummary { return plan.(rc := EMSGSIZE); }
      plan := plan.(summary := made.value);
    }

    /** One compaction, with its exact code. Whatever happens, the store stays valid and the fields of
        the context and the agent change together or not at all. The committed lineage becomes this
        compaction's link exactly if the compaction reaches its puts and they move the head. */
    method CompactOnce(events: History, env: Env) returns (rc: Rc)
      requires Valid() && store.HistoryOf(thread) <= events && env.id !in store.compactions
      modifies this, agent, store
      ensures Valid() && store.histories == old(store.histories)[thread := events]
      ensures CompactionCode(policy, events, old(summary), old(eventStart), env, rc)
      ensures rc == OK <==> Succeeds(policy, events, old(summary), old(eventStart), env)
      ensures rc == OK ==>
        && eventStart > old(eventStart) && CutTaken(policy, events, old(summary), old(eventStart), eventStart)
        && lineage == store.Committed(thread) && lineage.before == old(lineage) && Synced()
        && thread in store.heads && head == Some(store.heads[thread])
      ensures rc != OK ==>
        && summary == old(summary) && head == old(head) && eventStart == old(eventStart) && lineage == old(lineage)
        && agent.projection == old(agent.projection)
      ensures HeadCommitted(policy, events, old(summary), old(eventStart), env) ==>
        && LinkOf(policy, events, old(lineage), store.Committed(thread))
        && env.id in store.lineage && store.Committed(thread) == store.lineage[env.id]
      ensures !HeadCommitted(policy, events, old(summary), old(eventStart), env) ==>
        store.Committed(thread) == old(store.Committed(thread))
      ensures LineageKept(old(store.lineage), store.lineage)
      ensures store.heads - {thread} == old(store.heads) - {thread}
      ensures store.compactions.Keys <= old(store.compactions.Keys) + {env.id}
    {
      hide Store.Valid, CutTaken, PlanCode, Faithful, LineageKept;
      PlanCodeExact(policy, events, summary, eventStart);
      store.Extend(thread, events);
      FaithfulGrows(lineage, old(store.HistoryOf(thread)), events);
      SameLineage(store.lineage);
      var plan := Propose(events);
      if plan.rc != OK { return plan.rc; }
      if env.build != Built { return if env.build == NoMemory then ENOMEM else EIO; }
      rc := Commit(events, plan, env);
      assert LinkOf(policy, events, old(lineage), old(Link(plan)));
    }

    /** The link that this plan would add. */
    ghost function Link(plan: Plan): Lineage
      reads this
    {
      Then(lineage, plan.source, plan.summary, eventStart, plan.cut)
    }

    /** The plan continues this context's own lineage in this history. */
    ghost predicate Continues(events: History, plan: Plan)
      reads this
    {
      && eventStart < plan.cut <= |events| && plan.cut <= MAX_EXACT && Boundary(events, plan.cut)
      && plan.source == Source(summary, events[eventStart..plan.cut]) && plan.summary.version == SCHEMA_VERSION
    }

    /** The two puts: nothing in memory changes, and the committed lineage becomes the plan's link
        exactly if the PREPARED put was acknowledged and the head put was committed. */
    method PutPlan(events: History, plan: Plan, env: Env) returns (ok: bool)
      requires Valid() && thread in store.histories && store.histories[thread] == events
      requires env.id !in store.compactions && Continues(events, plan)
      modifies store`compactions, store`lineage, store`heads
      ensures Valid() && (ok <==> env.putPrepared.Acked? && env.putHead.Acked?)
      ensures HeadMoves(env.putPrepared, env.putHead) ==>
        && store.Committed(thread) == Link(plan) && env.id in store.lineage && store.lineage[env.id] == Link(plan)
        && thread in store.heads
        && store.heads[thread] == Head(thread, CommittedStatus, env.id, store.hash(plan.source), plan.cut)
      ensures !HeadMoves(env.putPrepared, env.putHead) ==> store.Committed(thread) == old(store.Committed(thread))
      ensures LineageKept(old(store.lineage), store.lineage)
      ensures store.heads - {thread} == old(store.heads) - {thread}
      ensures store.compactions.Keys <= old(store.compactions.Keys) + {env.id}
    {
      var prepared := Prepared(thread, PreparedStatus, eventStart, plan.cut, plan.tokens, store.hash(plan.source),
                               plan.summary, plan.source);
      ghost var next := Link(plan);
      assert RecordFits(store.hash, prepared, next, events);
      HeadsKnown();
      PutsMean(store.heads, store.lineage, env.id, prepared, next, env.putPrepared, env.putHead);
      hide Faithful, Store.Valid, LineageKept, CommittedIn, RecordFits, Continues;
      ok := store.PutBoth(env.id, prepared, env.putPrepared, env.putHead, next);
    }

    /** The context's fields and the agent's projection, together. */
    method Publish(plan: Plan, newHead: Head, ghost next: Lineage)
      requires Valid() && Faithful(next, store.HistoryOf(thread))
      requires Latest(next) == Some(plan.summary) && End(next) == plan.cut
      modifies this, agent
      ensures Valid() && Synced() && lineage == next && head == Some(newHead) && eventStart == plan.cut
    {
      hide Faithful, Store.Valid;
      lineage, head, summary, eventStart := next, Some(newHead), Some(plan.summary), plan.cut;
      agent.projection := Some(Projection(plan.summary, plan.cut));
    }

    /** The two puts and then, only if both were acknowledged, the in-memory change. */
    method Commit(events: History, plan: Plan, env: Env) returns (rc: Rc)
      requires Valid() && thread in store.histories && store.histories[thread] == events
      requires env.id !in store.compactions && Continues(events, plan)
      modifies this, agent, store`compactions, store`lineage, store`heads
      ensures Valid() && rc == (if env.putPrepared.Acked? && env.putHead.Acked? then OK else EIO)
      ensures rc == OK ==>
        && eventStart == plan.cut && lineage == old(Link(plan))
        && lineage == store.Committed(thread) && Synced() && thread in store.heads && head == Some(store.heads[thread])
      ensures rc != OK ==>
        && summary == old(summary) && head == old(head) && eventStart == old(eventStart) && lineage == old(lineage)
        && agent.projection == old(agent.projection)
      ensures store.Committed(thread)
        == (if HeadMoves(env.putPrepared, env.putHead) then old(Link(plan)) else old(store.Committed(thread)))
      ensures HeadMoves(env.putPrepared, env.putHead) ==>
        env.id in store.lineage && store.lineage[env.id] == store.Committed(thread)
      ensures LineageKept(old(store.lineage), store.lineage)
      ensures store.heads - {thread} == old(store.heads) - {thread}
      ensures store.compactions.Keys <= old(store.compactions.Keys) + {env.id}
    {
      ghost var next := Link(plan);
      assert Faithful(next, events);
      hide Faithful, Store.Valid, Store.Committed, LineageKept, Continues;
      var ok := PutPlan(events, plan, env);
      if !ok { return EIO; }
      Publish(plan, Head(thread, CommittedStatus, env.id, store.hash(plan.source), plan.cut), next);
      rc := OK;
    }

    /** Publish the context's own projection, unless its copy cannot be made, and compact while
        the request is over the trigger, a bounded number of times; success
        means that the request fits under the projection that the agent now has. */
    method Prepare(events: History, force: bool, cloned: bool, envs: seq<Env>) returns (rc: Rc, compacted: nat)
      requires Valid() && store.HistoryOf(thread) <= events && |envs| >= policy.maxCompactions
      requires forall i :: 0 <= i < |envs| ==> envs[i].id !in store.compactions
      requires forall i, j :: 0 <= i < j < |envs| ==> envs[i].id != envs[j].id
      modifies this, agent, store
      ensures Valid() && compacted <= policy.maxCompactions
      ensures Links(lineage) == Links(old(lineage)) + compacted && eventStart >= old(eventStart) + compacted
      ensures force ==>
        && (rc == OK <==> compacted == 1)
        && CompactionCode(policy, events, old(summary), old(eventStart), envs[0], rc)
      ensures !force && (cloned || old(summary).None?) ==> Synced()
      ensures !force && !cloned && old(summary).Some? ==>
        rc == ENOMEM && compacted == 0 && agent.projection == old(agent.projection)
      ensures !force && rc == OK ==>
        && policy.estimate(RequestValue(agent.projection, events)).Some?
        && policy.estimate(RequestValue(agent.projection, events)).value <= policy.window - policy.reserve
      ensures !force && (cloned || old(summary).None?) ==>
        FitCode(events, old(Published()), agent.projection, summary, eventStart, envs, rc, compacted)
    {
      compacted := 0;
      if force {
        rc := CompactOnce(events, envs[0]);
        compacted := if rc == OK then 1 else 0;
        return;
      }
      if summary.Some? && !cloned { return ENOMEM, 0; }
      agent.projection := Published();
      rc, compacted := CompactToFit(events, envs);
    }

    /** How the preparation ends: with a request below the trigger, all allowed compactions, or nothing
        to cut, it succeeds exactly if the request fits the window; otherwise the next compaction failed,
        and the code is its own. Only a request at or above the trigger is compacted at all. */
    ghost predicate FitCode(events: History, was: Option<Projection>, now: Option<Projection>, latest: Option<Summary>,
                            start: nat, envs: seq<Env>, rc: Rc, compacted: nat)
    {
      var first, last := policy.estimate(RequestValue(was, events)), policy.estimate(RequestValue(now, events));
      && (if compacted == 0 then now == was else first.Some? && first.value >= policy.trigger)
      && if last.None? then rc == EIO
         else if last.value < policy.trigger || compacted == policy.maxCompactions
                 || PlanCode(policy, events, latest, start, ENOENT)
         then rc == if last.value <= policy.window - policy.reserve then OK else EMSGSIZE
         else compacted < |envs| && rc != OK && CompactionCode(policy, events, latest, start, envs[compacted], rc)
    }

    method CompactToFit(events: History, envs: seq<Env>) returns (rc: Rc, compacted: nat)
      requires Valid() && Synced() && store.HistoryOf(thread) <= events && |envs| >= policy.maxCompactions
      requires forall i :: 0 <= i < |envs| ==> envs[i].id !in store.compactions
      requires forall i, j :: 0 <= i < j < |envs| ==> envs[i].id != envs[j].id
      modifies this, agent, store
      ensures Valid() && Synced() && compacted <= policy.maxCompactions
      ensures Links(lineage) == Links(old(lineage)) + compacted && eventStart >= old(eventStart) + compacted
      ensures rc == OK ==>
        && policy.estimate(RequestValue(agent.projection, events)).Some?
        && policy.estimate(RequestValue(agent.projection, events)).value <= policy.window - policy.reserve
      ensures FitCode(events, old(agent.projection), agent.projection, summary, eventStart, envs, rc, compacted)
    {
      hide CutTaken, Store.Valid, Faithful, PlanCode, LinkOf, LineageKept, CompactionCode, Succeeds, HeadCommitted;
      compacted := 0;
      var request := policy.estimate(RequestValue(agent.projection, events));
      if request.None? { return EIO, compacted; }
      while request.value >= policy.trigger && compacted < policy.maxCompactions
        invariant Valid() && Synced() && store.HistoryOf(thread) <= events && compacted <= policy.maxCompactions
        invariant request == policy.estimate(RequestValue(agent.projection, events)) && request.Some?
        invariant Links(lineage) == Links(old(lineage)) + compacted && eventStart >= old(eventStart) + compacted
        invariant compacted == 0 ==> agent.projection == old(agent.projection)
        invariant old(policy.estimate(RequestValue(agent.projection, events))).Some?
        invariant compacted > 0 ==> policy.estimate(RequestValue(old(agent.projection), events)).value >= policy.trigger
        invariant forall i :: compacted <= i < |envs| ==> envs[i].id !in store.compactions
        decreases policy.maxCompactions - compacted
      {
        label Before:
        rc := CompactOnce(events, envs[compacted]);
        NothingExactly(policy, events, old@Before(summary), old@Before(eventStart), envs[compacted], rc);
        if rc == ENOENT { break; }
        if rc != OK { return; }
        compacted := compacted + 1;
        request := policy.estimate(RequestValue(agent.projection, events));
        if request.None? { return EIO, compacted; }
      }
      rc := if request.value <= policy.window - policy.reserve then OK else EMSGSIZE;
    }

    /** A detected overflow is handled exactly by one successful compaction. */
    method HandleOverflow(events: History, detected: int, env: Env) returns (handled: bool, rc: Rc)
      requires Valid() && store.HistoryOf(thread) <= events && env.id !in store.compactions
      modifies this, agent, store
      ensures Valid()
      ensures handled <==> detected > 0 && Succeeds(policy, events, old(summary), old(eventStart), env)
      ensures handled ==> rc == OK && eventStart > old(eventStart) && Synced()
      ensures !handled ==> eventStart == old(eventStart) && agent.projection == old(agent.projection)
      ensures detected == 0 ==> rc == OK
      ensures detected < 0 ==> rc == EPROTO
      ensures detected > 0 ==> CompactionCode(policy, events, old(summary), old(eventStart), env, rc)
    {
      if detected < 0 { return false, EPROTO; }
      if detected == 0 { return false, OK; }
      rc := CompactOnce(events, env);
      handled := rc == OK;
    }
  }
}
