/** How a context summary came about: a chain of compactions, each of which replaced the
    previous summary and one further range of the history. */
module ContextLineage {
  import opened Collections
  import opened ContextCut

  const SCHEMA_VERSION := 1
  const MAX_EXACT: nat := 9007199254740991

  datatype Summary = Summary(version: int, text: string)
  datatype Source = Source(previous: Option<Summary>, events: seq<Event>)

  datatype Lineage = Root | Then(before: Lineage, source: Source, summary: Summary, start: nat, end: nat)

  function End(l: Lineage): nat {
    if l.Root? then 0 else l.end
  }

  function Latest(l: Lineage): Option<Summary> {
    if l.Root? then None else Some(l.summary)
  }

  function Links(l: Lineage): nat {
    if l.Root? then 0 else Links(l.before) + 1
  }

  /** Each link continues where the one before ended, at a valid boundary, and was made
      from that one's summary and exactly the events in between. */
  ghost predicate Faithful(l: Lineage, history: History) {
    l.Then? ==>
      && Faithful(l.before, history)
      && l.start == End(l.before) && l.start < l.end <= |history| && l.end <= MAX_EXACT
      && l.source == Source(Latest(l.before), history[l.start..l.end])
      && l.summary.version == SCHEMA_VERSION && Boundary(history, l.end)
  }

  /** Histories only grow, and what was faithful stays so. */
  lemma {:induction false} FaithfulGrows(l: Lineage, history: History, longer: History)
    requires Faithful(l, history) && history <= longer
    ensures Faithful(l, longer)
  {
    if l.Then? {
      FaithfulGrows(l.before, history, longer);
      assert longer[l.start..l.end] == history[l.start..l.end];
      assert longer[l.end - 1] == history[l.end - 1];
    }
  }

  /** How often an event was summarised. */
  function Summarised(l: Lineage, e: nat): nat {
    if l.Root? then 0 else Summarised(l.before, e) + (if l.start <= e < l.end then 1 else 0)
  }

  /** Every event before the projection start was summarised exactly once, no later one was. */
  lemma {:induction false} SummarisedOnce(l: Lineage, history: History, e: nat)
    requires Faithful(l, history)
    ensures Summarised(l, e) == if e < End(l) then 1 else 0
  {
    if l.Then? { SummarisedOnce(l.before, history, e); }
  }

  function Sources(l: Lineage): seq<Event> {
    if l.Root? then [] else Sources(l.before) + l.source.events
  }

  /** The summarised events in order, followed by the live suffix, are the history. */
  lemma {:induction false} NothingLost(l: Lineage, history: History)
    requires Faithful(l, history)
    ensures End(l) <= |history| && Sources(l) + history[End(l)..] == history
  {
    if l.Then? {
      NothingLost(l.before, history);
      assert history[l.start..] == history[l.start..l.end] + history[l.end..];
    }
  }

  /** A call before the projection start has its results before it too. */
  lemma LineageKeepsExchanges(l: Lineage, history: History, m: nat)
    requires Faithful(l, history) && Exchanges(history) && m < End(l) && CallBearing(history[m])
    ensures exists r :: m < r < End(l) && history[r].ToolResults? && forall k :: m < k < r ==> !Actor(history[k])
  {
    BoundaryKeepsExchanges(history, End(l), m);
  }
}
