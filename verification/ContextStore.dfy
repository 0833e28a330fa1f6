/** Context compaction over a durable store: a PREPARED record first, then the head that
    commits it, then the in-memory projection; and recovery from whatever the store holds. */
module ContextStore {
  import opened Collections
  import opened ContextCut
  import opened ContextLineage

  // ----- Records, policy, outcomes -----

  datatype Status = PreparedStatus | CommittedStatus | OtherStatus

  datatype Prepared = Prepared(thread: string, status: Status, start: nat, end: nat, tokens: nat, hash: string,
                               summary: Summary, source: Source)

  datatype Head = Head(thread: string, status: Status, compaction: string, hash: string, end: nat)

  /** The active projection that an agent puts in front of the live events. */
  datatype Projection = Projection(summary: Summary, start: nat)

  datatype Value =
    | SegmentValue(segment: seq<Event>)
    | SourceValue(source: Source)
    | SummaryValue(summary: Summary)
    | RequestValue(projection: Option<Projection>, events: History)

  datatype Policy = Policy(window: U64, reserve: U64, trigger: U64, retain: U64, maxSummaryInput: U64,
                           maxSummary: U64, maxCompactions: nat, estimate: Value -> Option<U64>,
                           summarize: (Source, nat) -> Option<Summary>)

  predicate PolicyValid(p: Policy) {
    && p.window > 0 && p.reserve < p.window && p.trigger > 0 && p.retain > 0 && p.maxSummaryInput > 0
    && p.maxSummary > 0 && p.maxCompactions > 0
    && p.trigger <= p.window - p.reserve && p.retain < p.trigger && p.maxSummary < p.window - p.reserve
  }

  /** The limits of a policy, one after the other. */
  method CheckPolicy(p: Policy) returns (ok: bool)
    ensures ok <==> PolicyValid(p)
  {
    if p.window == 0 || p.reserve >= p.window || p.trigger == 0 || p.retain == 0 || p.maxSummaryInput == 0
       || p.maxSummary == 0 || p.maxCompactions == 0 { return false; }
    var capacity := p.window - p.reserve;
    return p.trigger <= capacity && p.retain < p.trigger && p.maxSummary < capacity;
  }

  datatype Rc = OK | EINVAL | EIO | EPROTO | ENOENT | ERANGE | EMSGSIZE | ENOMEM

  /** A put: acknowledged, committed but reported as failed, or not committed. */
  datatype Put = Acked | Unacknowledged | Failed

  datatype Build = Built | NoIdentity | NoMemory

  /** Everything outside: hashing, the clock, the id generator and allocation before the
      first put, then the two puts. */
  datatype Env = Env(build: Build, id: string, putPrepared: Put, putHead: Put)

  function HeadFor(id: string, c: Prepared): Head {
    Head(c.thread, CommittedStatus, id, c.hash, c.end)
  }

  // ----- What a valid store holds -----

  /** What was prepared is what its lineage says, under the history of its thread. */
  ghost predicate RecordFits(hash: Source -> string, c: Prepared, l: Lineage, history: History) {
    && l.Then? && l.source == c.source && l.summary == c.summary && l.start == c.start && l.end == c.end
    && Faithful(l, history) && c.status == PreparedStatus && c.hash == hash(c.source)
  }

  ghost predicate RecordsOk(hash: Source -> string, compactions: map<string, Prepared>, lineage: map<string, Lineage>,
                            histories: map<string, History>) {
    && lineage.Keys == compactions.Keys
    && forall id :: id in compactions ==>
         && compactions[id].thread in histories
         && RecordFits(hash, compactions[id], lineage[id], histories[compactions[id].thread])
  }

  /** A head commits a stored compaction of its own thread. */
  ghost predicate HeadFits(h: Head, thread: string, compactions: map<string, Prepared>) {
    && h.thread == thread && h.status == CommittedStatus && h.compaction in compactions
    && compactions[h.compaction].thread == thread
    && compactions[h.compaction].hash == h.hash && compactions[h.compaction].end == h.end
  }

  ghost predicate HeadsOk(heads: map<string, Head>, compactions: map<string, Prepared>) {
    forall thread :: thread in heads ==> HeadFits(heads[thread], thread, compactions)
  }

  lemma RecordLands(hash: Source -> string, compactions: map<string, Prepared>, lineage: map<string, Lineage>,
                    histories: map<string, History>, heads: map<string, Head>, id: string, c: Prepared, l: Lineage)
    requires RecordsOk(hash, compactions, lineage, histories) && HeadsOk(heads, compactions)
    requires id !in compactions && c.thread in histories && RecordFits(hash, c, l, histories[c.thread])
    ensures RecordsOk(hash, compactions[id := c], lineage[id := l], histories)
    ensures HeadsOk(heads, compactions[id := c]) && LineageKept(lineage, lineage[id := l])
  {
    hide RecordFits;
    assert compactions[id := c].Keys == compactions.Keys + {id} && lineage[id := l].Keys == lineage.Keys + {id};
  }

  /** What was recorded about earlier compactions stays. */
  ghost predicate LineageKept(before: map<string, Lineage>, after: map<string, Lineage>) {
    forall id :: id in before ==> id in after && after[id] == before[id]
  }

  lemma SameLineage(lineage: map<string, Lineage>)
    ensures LineageKept(lineage, lineage)
  {
  }

  ghost function CommittedIn(heads: map<string, Head>, lineage: map<string, Lineage>, thread: string): Lineage {
    if thread in heads && heads[thread].compaction in lineage then lineage[heads[thread].compaction] else Root
  }

  predicate HeadMoves(putPrepared: Put, putHead: Put) {
    putPrepared.Acked? && !putHead.Failed?
  }

  /** What the two puts mean for recovery: the committed lineage becomes the new one exactly if
      the head moved; earlier lineages and other threads' heads stay. */
  lemma PutsMean(heads: map<string, Head>, lineage: map<string, Lineage>, id: string, c: Prepared, l: Lineage,
                 putPrepared: Put, putHead: Put)
    requires id !in lineage && (c.thread in heads ==> heads[c.thread].compaction in lineage)
    ensures var lineage' := if putPrepared.Failed? then lineage else lineage[id := l];
      var heads' := if HeadMoves(putPrepared, putHead) then heads[c.thread := HeadFor(id, c)] else heads;
      && CommittedIn(heads', lineage', c.thread)
         == (if HeadMoves(putPrepared, putHead) then l else CommittedIn(heads, lineage, c.thread))
      && LineageKept(lineage, lineage') && heads' - {c.thread} == heads - {c.thread}
  {
  }

  // ----- The store -----

  class Store {
    const hash: Source -> string
    var compactions: map<string, Prepared>
    var heads: map<string, Head>
    ghost var lineage: map<string, Lineage>
    ghost var histories: map<string, History>

    constructor (hash: Source -> string)
      ensures Valid() && this.hash == hash && compactions == map[] && heads == map[] && histories == map[]
    {
      this.hash := hash;
      compactions, heads, lineage, histories := map[], map[], map[], map[];
    }

    ghost predicate Valid()
      reads this
    {
      RecordsOk(hash, compactions, lineage, histories) && HeadsOk(heads, compactions)
    }

    ghost function HistoryOf(thread: string): History
      reads this
    {
      if thread in histories then histories[thread] else []
    }

    /** The lineage that recovery would continue from. */
    ghost function Committed(thread: string): Lineage
      reads this
    {
      CommittedIn(heads, lineage, thread)
    }

    /** A longer history of one thread keeps everything valid. */
    ghost method Extend(thread: string, events: History)
      requires Valid() && HistoryOf(thread) <= events
      modifies this`histories
      ensures Valid() && histories == old(histories)[thread := events]
    {
      histories := histories[thread := events];
      forall id | id in compactions && compactions[id].thread == thread
        ensures Faithful(lineage[id], events)
      {
        FaithfulGrows(lineage[id], old(histories[thread]), events);
      }
    }

    method PutPrepared(id: string, c: Prepared, outcome: Put, ghost l: Lineage) returns (ok: bool)
      requires Valid() && id !in compactions && c.thread in histories && RecordFits(hash, c, l, histories[c.thread])
      modifies this`compactions, this`lineage
      ensures Valid() && ok == outcome.Acked? && LineageKept(old(lineage), lineage)
      ensures outcome.Failed? ==> compactions == old(compactions) && lineage == old(lineage)
      ensures !outcome.Failed? ==> compactions == old(compactions)[id := c] && lineage == old(lineage)[id := l]
    {
      hide RecordsOk, HeadsOk, RecordFits;
      RecordLands(hash, compactions, lineage, histories, heads, id, c, l);
      if !outcome.Failed? { compactions, lineage := compactions[id := c], lineage[id := l]; }
      ok := outcome.Acked?;
    }

    method PutHead(thread: string, h: Head, outcome: Put) returns (ok: bool)
      requires Valid() && HeadFits(h, thread, compactions)
      modifies this`heads
      ensures Valid() && ok == outcome.Acked?
      ensures heads == if outcome.Failed? then old(heads) else old(heads)[thread := h]
    {
      hide RecordsOk, HeadFits;
      if !outcome.Failed? { heads := heads[thread := h]; }
      ok := outcome.Acked?;
    }

    /** The PREPARED record, and only after its acknowledgement the head that commits it. The head
        moves exactly if the PREPARED put was acknowledged and the head put was committed. */
    method PutBoth(id: string, c: Prepared, putPrepared: Put, putHead: Put, ghost l: Lineage) returns (ok: bool)
      requires Valid() && id !in compactions && c.thread in histories && RecordFits(hash, c, l, histories[c.thread])
      modifies this`compactions, this`lineage, this`heads
      ensures Valid() && (ok <==> putPrepared.Acked? && putHead.Acked?)
      ensures compactions == if putPrepared.Failed? then old(compactions) else old(compactions)[id := c]
      ensures lineage == if putPrepared.Failed? then old(lineage) else old(lineage)[id := l]
      ensures heads == if HeadMoves(putPrepared, putHead) then old(heads)[c.thread := HeadFor(id, c)] else old(heads)
    {
      hide RecordsOk, HeadsOk, RecordFits, LineageKept;
      ok := PutPrepared(id, c, putPrepared, l);
      if ok { ok := PutHead(c.thread, HeadFor(id, c), putHead); }
    }
  }

  class Agent {
    var projection: Option<Projection>

    constructor ()
      ensures projection == None
    {
      projection := None;
    }
  }
}
