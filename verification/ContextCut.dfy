/** Where a history may be cut, and which cut a compaction takes under its token budgets. */
module ContextCut {
  import opened Collections

  /** One history event. Only the kind and the number of tool calls matter to a cut. */
  datatype Event = Model(calls: nat, body: string) | ToolResults(body: string) | OtherEvent(body: string)

  type History = seq<Event>

  const U64_MAX: nat := 0xffff_ffff_ffff_ffff
  type U64 = x: nat | x <= U64_MAX

  /** The token estimator of the Provider on an event segment; it may fail. */
  type Estimator = seq<Event> -> Option<U64>

  // ----- Boundaries -----

  /** A cut at b keeps every tool exchange before it complete. */
  predicate Boundary(events: History, b: nat) {
    && 1 <= b <= |events|
    && (events[b - 1].ToolResults? || (events[b - 1].Model? && events[b - 1].calls == 0))
  }

  ghost predicate NoneBetween(events: History, lo: nat, hi: nat) {
    forall b: nat {:trigger Boundary(events, b)} :: lo < b < hi ==> !Boundary(events, b)
  }

  /** The greatest boundary strictly between start and before, or start. */
  method PreviousBoundary(events: History, start: nat, before: nat) returns (r: nat)
    requires start < before
    ensures start <= r < before && (r == start || Boundary(events, r)) && NoneBetween(events, r, before)
  {
    var b := before;
    while b > start + 1
      invariant start < b <= before && NoneBetween(events, b - 1, before)
    {
      if Boundary(events, b - 1) { return b - 1; }
      b := b - 1;
    }
    return start;
  }

  /** The least boundary after `after` up to the limit, or one past the limit. */
  method NextBoundary(events: History, after: nat, limit: nat) returns (r: nat)
    requires after <= limit
    ensures after < r <= limit + 1 && (r == limit + 1 || Boundary(events, r)) && NoneBetween(events, after, r)
  {
    r := after + 1;
    while r <= limit
      invariant after < r <= limit + 1 && NoneBetween(events, after, r)
    {
      if Boundary(events, r) { return; }
      r := r + 1;
    }
  }

  // ----- The tokens of a retained suffix -----

  function Tokens(est: Estimator, segment: seq<Event>): nat {
    match est(segment) case None => 0 case Some(n) => n
  }

  /** The first boundary from here on, or the end of the history. */
  function SegmentEnd(events: History, from: nat): (r: nat)
    requires from <= |events|
    ensures from <= r <= |events|
    ensures r == |events| || Boundary(events, r)
    ensures forall b: nat {:trigger Boundary(events, b)} :: from <= b < r ==> !Boundary(events, b)
    decreases |events| - from
  {
    if from == |events| || Boundary(events, from) then from else SegmentEnd(events, from + 1)
  }

  /** Estimated tokens of everything from c on, segment by segment. */
  function SuffixTokens(est: Estimator, events: History, c: nat): nat
    requires c <= |events|
    decreases |events| - c
  {
    if c == |events| then 0
    else var next := SegmentEnd(events, c + 1);
      Tokens(est, events[c..next]) + SuffixTokens(est, events, next)
  }

  lemma SegmentEndIs(events: History, c: nat, e: nat)
    requires c < e <= |events| && (e == |events| || Boundary(events, e)) && NoneBetween(events, c, e)
    ensures SegmentEnd(events, c + 1) == e
  {
  }

  lemma {:induction false} SuffixTokensGrow(est: Estimator, events: History, b: nat, c: nat)
    requires b <= c <= |events|
    requires c == |events| || b == c || Boundary(events, c)
    ensures SuffixTokens(est, events, b) >= SuffixTokens(est, events, c)
    decreases |events| - b
  {
    if b < c {
      var next := SegmentEnd(events, b + 1);
      assert c == |events| || Boundary(events, c);
      SuffixTokensGrow(est, events, next, c);
    }
  }

  // ----- Choosing the cut -----

  datatype CutResult = Cut(at: nat) | NothingToCut | EstimateFailed | TokensOverflow

  /** The retained suffix consists of whole segments; it is the last segment alone or it
      fits the budget, and every longer one exceeds the budget. */
  ghost predicate BestCut(est: Estimator, events: History, start: nat, budget: nat, cut: nat) {
    && start < cut < |events| && Boundary(events, cut)
    && (NoneBetween(events, cut, |events|) || SuffixTokens(est, events, cut) <= budget)
    && SuffixTokens(est, events, cut) <= U64_MAX
    && LongerOver(est, events, start, budget, cut)
  }

  /** Every longer suffix of whole segments exceeds the budget. */
  ghost predicate LongerOver(est: Estimator, events: History, start: nat, budget: nat, cut: nat)
    requires cut <= |events|
  {
    forall b: nat {:trigger Boundary(events, b)} :: start <= b < cut && (b == start || Boundary(events, b)) ==>
      SuffixTokens(est, events, b) > budget
  }

  // ----- The backward walk, position by position -----

  /** Every segment from c on has an estimate. */
  predicate Estimated(est: Estimator, events: History, c: nat)
    requires c <= |events|
    decreases |events| - c
  {
    c == |events| || (var next := SegmentEnd(events, c + 1); est(events[c..next]).Some? && Estimated(est, events, next))
  }

  lemma {:induction false} EstimatedUp(est: Estimator, events: History, c: nat, b: nat)
    requires c <= b <= |events| && (b == c || b == |events| || Boundary(events, b)) && Estimated(est, events, c)
    ensures Estimated(est, events, b)
    decreases |events| - c
  {
    if c < b { EstimatedUp(est, events, SegmentEnd(events, c + 1), b); }
  }

  /** The suffix from c may be retained: its segments have estimates, whose sum fits the word, and it
      is the last segment alone or within the budget. */
  ghost predicate Retainable(est: Estimator, events: History, start: nat, budget: nat, c: nat) {
    && start <= c <= |events| && (c == start || c == |events| || Boundary(events, c))
    && Estimated(est, events, c) && SuffixTokens(est, events, c) <= U64_MAX
    && (NoneBetween(events, c, |events|) || SuffixTokens(est, events, c) <= budget)
  }

  /** The retainable suffixes end at c; the segment from p to c is the one that cannot be added. */
  ghost predicate Stuck(est: Estimator, events: History, start: nat, budget: nat, p: nat, c: nat) {
    && start <= p < c && (p == start || Boundary(events, p)) && NoneBetween(events, p, c)
    && Retainable(est, events, start, budget, c) && !Retainable(est, events, start, budget, p)
  }

  lemma RetainableUp(est: Estimator, events: History, start: nat, budget: nat, c: nat, b: nat)
    requires Retainable(est, events, start, budget, c) && c <= b <= |events| && (b == c || Boundary(events, b))
    ensures Retainable(est, events, start, budget, b)
  {
    EstimatedUp(est, events, c, b);
    SuffixTokensGrow(est, events, c, b);
  }

  lemma StuckOnce(est: Estimator, events: History, start: nat, budget: nat, p: nat, c: nat, p': nat, c': nat)
    requires Stuck(est, events, start, budget, p, c) && Stuck(est, events, start, budget, p', c')
    ensures p == p' && c == c'
  {
    if c <= p' {
      RetainableUp(est, events, start, budget, c, p');
    } else if c' <= p {
      RetainableUp(est, events, start, budget, c', p);
    }
  }

  /** What choosing a cut gives, in terms of the retainable suffixes. */
  ghost predicate CutResultIs(est: Estimator, events: History, start: nat, budget: nat, r: CutResult) {
    match r
    case NothingToCut => start >= |events| || Retainable(est, events, start, budget, start)
    case EstimateFailed =>
      exists p: nat, c: nat :: Stuck(est, events, start, budget, p, c) && c <= |events| && est(events[p..c]).None?
    case TokensOverflow =>
      exists p: nat, c: nat :: Stuck(est, events, start, budget, p, c) && c <= |events| && est(events[p..c]).Some?
                               && SuffixTokens(est, events, p) > U64_MAX
    case Cut(at) =>
      exists p: nat :: Stuck(est, events, start, budget, p, at) && at <= |events| && est(events[p..at]).Some?
                       && SuffixTokens(est, events, p) <= U64_MAX
  }

  /** The four outcomes exclude each other, so each one's condition is exact. */
  lemma CutResultOnce(est: Estimator, events: History, start: nat, budget: nat, r: CutResult, r': CutResult)
    requires CutResultIs(est, events, start, budget, r) && CutResultIs(est, events, start, budget, r')
    ensures r == r'
  {
    hide Retainable, Stuck;
    if !r.NothingToCut? {
      var p, c := SomeStuck(est, events, start, budget, r);
      if r'.NothingToCut? {
        NotAtStart(est, events, start, budget, p, c);
      } else {
        var p', c' := SomeStuck(est, events, start, budget, r');
        StuckOnce(est, events, start, budget, p, c, p', c');
      }
    } else if !r'.NothingToCut? {
      var p, c := SomeStuck(est, events, start, budget, r');
      NotAtStart(est, events, start, budget, p, c);
    }
  }

  lemma SomeStuck(est: Estimator, events: History, start: nat, budget: nat, r: CutResult) returns (p: nat, c: nat)
    requires CutResultIs(est, events, start, budget, r) && !r.NothingToCut?
    ensures Stuck(est, events, start, budget, p, c) && c <= |events|
    ensures r == if est(events[p..c]).None? then EstimateFailed
                 else if SuffixTokens(est, events, p) > U64_MAX then TokensOverflow else Cut(c)
  {
    match r {
      case EstimateFailed =>
        p, c :| Stuck(est, events, start, budget, p, c) && c <= |events| && est(events[p..c]).None?;
      case TokensOverflow =>
        p, c :| Stuck(est, events, start, budget, p, c) && c <= |events| && est(events[p..c]).Some?
                && SuffixTokens(est, events, p) > U64_MAX;
      case Cut(at) =>
        c := at;
        p :| Stuck(est, events, start, budget, p, at) && at <= |events| && est(events[p..at]).Some?
             && SuffixTokens(est, events, p) <= U64_MAX;
    }
  }

  lemma NotAtStart(est: Estimator, events: History, start: nat, budget: nat, p: nat, c: nat)
    requires Stuck(est, events, start, budget, p, c)
    ensures start < |events| && !Retainable(est, events, start, budget, start)
  {
    if Retainable(est, events, start, budget, start) { RetainableUp(est, events, start, budget, start, p); }
  }

  /** One more segment. */
  lemma WalkStep(est: Estimator, events: History, start: nat, budget: nat, p: nat, c: nat)
    requires Retainable(est, events, start, budget, c) && start <= p < c && (p == start || Boundary(events, p))
    requires NoneBetween(events, p, c) && (c == start || c == |events| || Boundary(events, c))
    ensures est(events[p..c]).Some? ==>
      SuffixTokens(est, events, p) == est(events[p..c]).value + SuffixTokens(est, events, c)
    ensures Retainable(est, events, start, budget, p) <==>
      && est(events[p..c]).Some? && SuffixTokens(est, events, p) <= U64_MAX
      && (c == |events| || SuffixTokens(est, events, p) <= budget)
  {
    SegmentEndIs(events, p, c);
    assert Estimated(est, events, p) <==> est(events[p..c]).Some? && Estimated(est, events, c);
    assert c < |events| ==> Boundary(events, c) && !NoneBetween(events, p, |events|);
  }

  /** Walk back over whole segments while they fit; the newest one is always retained. */
  method ChooseCut(est: Estimator, events: History, start: nat, budget: U64) returns (r: CutResult)
    ensures CutResultIs(est, events, start, budget, r)
    ensures r.Cut? ==> BestCut(est, events, start, budget, r.at)
  {
    hide Retainable, Estimated;
    var cursor, cut, retained: U64, retainedOne := |events|, |events|, 0, false;
    if start >= |events| { return NothingToCut; }
    WalkBegins(est, events, start, budget);
    while cursor > start
      invariant start <= cursor <= |events| && cut == cursor
      invariant cursor == start || cursor == |events| || Boundary(events, cursor)
      invariant retained == SuffixTokens(est, events, cursor)
      invariant retainedOne <==> cursor < |events|
      invariant Retainable(est, events, start, budget, cursor)
    {
      var previous := PreviousBoundary(events, start, cursor);
      WalkStep(est, events, start, budget, previous, cursor);
      var tokens := est(events[previous..cursor]);
      if tokens.None? {
        assert Stuck(est, events, start, budget, previous, cursor);
        return EstimateFailed;
      }
      if tokens.value > U64_MAX - retained {
        assert Stuck(est, events, start, budget, previous, cursor);
        return TokensOverflow;
      }
      if retainedOne && retained + tokens.value > budget {
        assert Stuck(est, events, start, budget, previous, cursor);
        StuckIsBest(est, events, start, budget, previous, cursor);
        break;
      }
      retainedOne, retained, cut, cursor := true, retained + tokens.value, previous, previous;
      if previous == start { break; }
    }
    if cut <= start { return NothingToCut; }
    return Cut(cut);
  }

  lemma WalkBegins(est: Estimator, events: History, start: nat, budget: nat)
    requires start < |events|
    ensures Retainable(est, events, start, budget, |events|)
  {
  }

  lemma StuckIsBest(est: Estimator, events: History, start: nat, budget: nat, p: nat, c: nat)
    requires Retainable(est, events, start, budget, c)
    requires start <= p < c < |events| && (p == start || Boundary(events, p))
    requires NoneBetween(events, p, c) && SuffixTokens(est, events, p) > budget
    ensures BestCut(est, events, start, budget, c)
  {
    hide NoneBetween, SuffixTokens, Estimated, LongerOver;
    LongerExceeds(est, events, start, p, c, budget);
  }

  lemma LongerExceeds(est: Estimator, events: History, start: nat, previous: nat, cut: nat, budget: nat)
    requires start <= previous < cut <= |events| && (previous == start || Boundary(events, previous))
    requires NoneBetween(events, previous, cut) && SuffixTokens(est, events, previous) > budget
    ensures LongerOver(est, events, start, budget, cut)
  {
    forall b: nat | start <= b < cut && (b == start || Boundary(events, b))
      ensures SuffixTokens(est, events, b) > budget
    {
      SuffixTokensGrow(est, events, b, previous);
    }
  }

  // ----- Limiting the source -----

  /** Source tokens of a cut, as estimated; a failed estimate is None. */
  type SourceEstimator = nat -> Option<U64>

  ghost predicate Affordable(est: SourceEstimator, max: nat, b: nat) {
    est(b).Some? && est(b).value <= max
  }

  datatype LimitResult = Limited(at: nat, tokens: U64) | TooLarge | SourceEstimateFailed

  /** The first boundary after the start whose source the summariser cannot take. */
  ghost predicate FirstOver(est: SourceEstimator, events: History, start: nat, desired: nat, max: nat, b: nat) {
    && start < b <= desired && Boundary(events, b) && !Affordable(est, max, b)
    && AllAffordable(est, events, start, b - 1, max)
  }

  ghost predicate AllAffordable(est: SourceEstimator, events: History, start: nat, last: nat, max: nat) {
    forall b: nat {:trigger Boundary(events, b)} :: start < b <= last && Boundary(events, b) ==> Affordable(est, max, b)
  }

  ghost predicate LimitResultIs(est: SourceEstimator, events: History, start: nat, desired: nat, max: nat,
                                r: LimitResult) {
    match r
    case SourceEstimateFailed => exists b: nat :: FirstOver(est, events, start, desired, max, b) && est(b).None?
    case TooLarge =>
      exists b: nat :: FirstOver(est, events, start, desired, max, b) && est(b).Some? && NoneBetween(events, start, b)
    case Limited(at, tokens) =>
      && start < at <= desired && Boundary(events, at) && est(at) == Some(tokens)
      && AllAffordable(est, events, start, at, max)
      && (at == desired
          || exists b: nat :: FirstOver(est, events, start, desired, max, b) && est(b).Some? && at < b
                              && NoneBetween(events, at, b))
  }

  lemma FirstOverOnce(est: SourceEstimator, events: History, start: nat, desired: nat, max: nat, b: nat, b': nat)
    requires FirstOver(est, events, start, desired, max, b) && FirstOver(est, events, start, desired, max, b')
    ensures b == b'
  {
  }

  /** The three outcomes exclude each other. */
  lemma LimitResultOnce(est: SourceEstimator, events: History, start: nat, desired: nat, max: nat, r: LimitResult,
                        r': LimitResult)
    requires LimitResultIs(est, events, start, desired, max, r) && LimitResultIs(est, events, start, desired, max, r')
    ensures r == r'
  {
    forall b: nat, b': nat |
      FirstOver(est, events, start, desired, max, b) && FirstOver(est, events, start, desired, max, b')
      ensures b == b'
    {
      FirstOverOnce(est, events, start, desired, max, b, b');
    }
  }

  /** The longest run of affordable boundaries up to the desired cut. */
  method LimitSource(est: SourceEstimator, events: History, start: nat, desired: nat, max: U64) returns (r: LimitResult)
    requires start < desired && Boundary(events, desired)
    ensures LimitResultIs(est, events, start, desired, max, r)
  {
    var selected, tokens: U64, found := start, 0, false;
    var candidate := NextBoundary(events, start, desired);
    while candidate <= desired
      invariant start <= selected < candidate <= desired + 1 && (found <==> selected > start)
      invariant selected < desired
      invariant candidate == desired + 1 || Boundary(events, candidate)
      invariant NoneBetween(events, selected, candidate)
      invariant found ==> Boundary(events, selected) && est(selected) == Some(tokens)
      invariant AllAffordable(est, events, start, selected, max)
      decreases desired + 1 - candidate
    {
      assert AllAffordable(est, events, start, candidate - 1, max);
      var t := est(candidate);
      if t.None? {
        assert FirstOver(est, events, start, desired, max, candidate);
        return SourceEstimateFailed;
      }
      if t.value > max {
        assert FirstOver(est, events, start, desired, max, candidate);
        break;
      }
      selected, tokens, found := candidate, t.value, true;
      if candidate == desired { break; }
      candidate := NextBoundary(events, candidate, desired);
    }
    if !found { return TooLarge; }
    return Limited(selected, tokens);
  }

  // ----- No split tool exchange -----

  predicate Actor(e: Event) { e.Model? || e.ToolResults? }

  /** Every call-bearing model event is answered before any other model event or result. */
  ghost predicate Exchanges(events: History) {
    forall m, r ::
      (0 <= m < r < |events| && CallBearing(events[m]) && Actor(events[r])
       && forall k :: m < k < r ==> !Actor(events[k])) ==> events[r].ToolResults?
  }

  predicate CallBearing(e: Event) { e.Model? && e.calls > 0 }

  function FirstActor(events: History, lo: nat, hi: nat): (r: nat)
    requires lo <= hi < |events| && Actor(events[hi])
    ensures lo <= r <= hi && Actor(events[r])
    ensures forall k :: lo <= k < r ==> !Actor(events[k])
    decreases hi - lo
  {
    if Actor(events[lo]) then lo else FirstActor(events, lo + 1, hi)
  }

  /** A boundary leaves no call before it without its results before it. */
  lemma BoundaryKeepsExchanges(events: History, b: nat, m: nat)
    requires Exchanges(events) && Boundary(events, b) && m < b && CallBearing(events[m])
    ensures exists r :: m < r < b && events[r].ToolResults? && forall k :: m < k < r ==> !Actor(events[k])
  {
    var r := FirstActor(events, m + 1, b - 1);
    assert events[r].ToolResults?;
  }

  /** Every call before b has its results before b. */
  ghost predicate AnsweredBefore(events: History, b: nat)
    requires b <= |events|
  {
    forall m :: 0 <= m < b && events[m].Model? && events[m].calls > 0 ==>
      exists r :: m < r < b && events[r].ToolResults?
  }

  /** In a history of well-formed exchanges a cut may fall exactly where a model event or tool results
      end and nothing is left unanswered. */
  lemma BoundaryMeans(events: History, b: nat)
    requires Exchanges(events) && 1 <= b <= |events|
    ensures Boundary(events, b) <==>
      (events[b - 1].Model? || events[b - 1].ToolResults?) && AnsweredBefore(events, b)
  {
    if Boundary(events, b) {
      forall m | 0 <= m < b && events[m].Model? && events[m].calls > 0
        ensures exists r :: m < r < b && events[r].ToolResults?
      {
        BoundaryKeepsExchanges(events, b, m);
      }
    }
  }

  // ----- Some cut is always found -----

  lemma {:induction false} BoundaryBefore(events: History, start: nat, before: nat, b: nat) returns (p: nat)
    requires start <= b < before && NoneBetween(events, b, before)
    ensures start <= p < before && (p == start || Boundary(events, p)) && NoneBetween(events, p, before)
    decreases b
  {
    if b == start || Boundary(events, b) {
      p := b;
    } else {
      p := BoundaryBefore(events, start, before, b - 1);
    }
  }

  /** The walk either gets to the start or is stuck somewhere. */
  lemma {:induction false} WalkStops(est: Estimator, events: History, start: nat, budget: nat, c: nat)
    requires Retainable(est, events, start, budget, c)
    ensures Retainable(est, events, start, budget, start)
      || exists p: nat, c': nat :: Stuck(est, events, start, budget, p, c') && c' <= |events|
    decreases c
  {
    hide Retainable;
    RetainableInside(est, events, start, budget, c);
    if c > start {
      var p := BoundaryBefore(events, start, c, c - 1);
      if Retainable(est, events, start, budget, p) {
        WalkStops(est, events, start, budget, p);
      } else {
        assert Stuck(est, events, start, budget, p, c);
      }
    }
  }

  lemma RetainableInside(est: Estimator, events: History, start: nat, budget: nat, c: nat)
    requires Retainable(est, events, start, budget, c)
    ensures start <= c <= |events|
  {
  }

  /** With good estimates, a history over the budget that has an answered exchange, or a model's last
      word, before its last event is always cut, and right behind such an event. */
  lemma ExchangesAreCut(est: Estimator, events: History, start: nat, budget: nat, b: nat)
    requires start < b < |events|
    requires events[b - 1].ToolResults? || (events[b - 1].Model? && events[b - 1].calls == 0)
    requires (forall s :: est(s).Some?) && budget < SuffixTokens(est, events, start) <= U64_MAX
    ensures exists at: nat ::
      && start < at < |events| && CutResultIs(est, events, start, budget, Cut(at))
      && (events[at - 1].ToolResults? || (events[at - 1].Model? && events[at - 1].calls == 0))
  {
    hide Retainable;
    WalkBegins(est, events, start, budget);
    WalkStops(est, events, start, budget, |events|);
    OverBudget(est, events, start, budget, b);
    var p: nat, c: nat :| Stuck(est, events, start, budget, p, c) && c <= |events|;
    StuckInside(est, events, start, budget, p, c);
    SuffixTokensGrow(est, events, start, p);
    assert CutResultIs(est, events, start, budget, Cut(c));
  }

  lemma OverBudget(est: Estimator, events: History, start: nat, budget: nat, b: nat)
    requires start < b < |events| && SuffixTokens(est, events, start) > budget
    requires events[b - 1].ToolResults? || (events[b - 1].Model? && events[b - 1].calls == 0)
    ensures !Retainable(est, events, start, budget, start)
  {
    assert Boundary(events, b);
  }

  lemma {:induction false} AllEstimated(est: Estimator, events: History, c: nat)
    requires c <= |events| && forall s :: est(s).Some?
    ensures Estimated(est, events, c)
    decreases |events| - c
  {
    if c < |events| { AllEstimated(est, events, SegmentEnd(events, c + 1)); }
  }

  lemma StuckInside(est: Estimator, events: History, start: nat, budget: nat, p: nat, c: nat)
    requires Stuck(est, events, start, budget, p, c) && c <= |events|
    requires (forall s :: est(s).Some?) && SuffixTokens(est, events, start) <= U64_MAX
    ensures c < |events| && Boundary(events, c)
  {
    AllEstimated(est, events, p);
    SuffixTokensGrow(est, events, start, p);
  }
}
