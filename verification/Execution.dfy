/** The asynchronous execution handle: submission, one worker, any number of holders, as
    atomic steps that interleave in every possible way. */
module Execution {
  import opened Collections

  const SIZE_MAX: nat := 0xffff_ffff_ffff_ffff

  // ----- State -----

  datatype Status = Queued | Running | Completed | Interrupted | Cancelled | TimedOut | Failed

  predicate Terminal(s: Status) { !s.Queued? && !s.Running? }

  /** The status text of a run summary. */
  datatype Report = SaysCompleted | SaysInterrupted | SaysCancelled | SaysTimedOut | SaysOther | NoReport

  function StatusFromSummary(r: Report): (s: Status)
    ensures Terminal(s)
  {
    match r
    case SaysCompleted => Completed case SaysInterrupted => Interrupted case SaysCancelled => Cancelled
    case SaysTimedOut => TimedOut case SaysOther => Failed case NoReport => Failed
  }

  datatype Owner = Submitter | Worker | Caller(id: nat)

  /** A result tree by identity; either tree of a result may be missing. */
  type Tree = nat
  datatype Pair = Pair(summary: Option<Tree>, state: Option<Tree>)
  const NO_PAIR := Pair(None, None)

  datatype Outcome = Outcome(code: int, trees: Pair, report: Report)

  function StatusOf(o: Outcome): (s: Status)
    ensures Terminal(s)
  {
    if o.code == 0 then StatusFromSummary(o.report) else Failed
  }

  /** The atomic count, and beside it the references that submission still owns, the worker's,
      and those of callers (reference to caller); who took the count to zero and still has to
      destroy; and what each retain loop has read. */
  datatype Refs = Refs(count: nat, own: nat, workers: nat, handles: map<nat, nat>, nextHandle: nat,
                       dropping: set<Owner>, destroyed: nat, seen: map<nat, nat>) {
    ghost function Live(): nat { own + workers + |handles| }
  }

  /** The fields under the mutex, and the history of what was published, shown and moved. */
  datatype Results = Results(status: Status, code: int, taken: bool, trees: Pair, published: Option<Outcome>,
                             takes: seq<Pair>, peeks: seq<Pair>, created: multiset<Tree>, freed: multiset<Tree>)

  datatype SubmitPc = Preparing | Admitting | Returning | Returned | Unwinding(left: nat)
  datatype WorkerPc = NotQueued | InPool | Executing | Holding(outcome: Outcome) | Published | Notified | Gone

  datatype State = State(refs: Refs, results: Results, submit: SubmitPc, worker: WorkerPc)

  const INITIAL := State(Refs(1, 1, 0, map[], 0, {}, 0, map[]),
                         Results(Queued, 0, false, NO_PAIR, None, [], [], multiset{}, multiset{}),
                         Preparing, NotQueued)

  function Trees(p: Pair): multiset<Tree> {
    (if p.summary.None? then multiset{} else multiset{p.summary.value})
    + (if p.state.None? then multiset{} else multiset{p.state.value})
  }

  // ----- Steps -----

  datatype SubmitStep = PrepareFails | RetainForWorker | Refuse | Accept | Return(caller: nat) | Unwind
  datatype WorkerStep = Starts | Ends(outcome: Outcome) | Publishes | Notifies | Leaves
  datatype CallerStep =
    | Loads(caller: nat) | Swaps(caller: nat, spurious: bool) | Gives(handle: nat, caller: nat) | Releases(handle: nat)
    | Peeks(handle: nat) | Takes(handle: nat)
  datatype Step = BySubmitter(s: SubmitStep) | ByWorker(w: WorkerStep) | ByCaller(c: CallerStep) | Destroys(who: Owner)

  /** A caller may use the object through a reference that it holds. */
  predicate Holds(r: Refs, handle: nat) {
    handle in r.handles
  }

  predicate SubmitEnabled(pc: SubmitPc, a: SubmitStep) {
    match a
    case PrepareFails => pc == Preparing
    case RetainForWorker => pc == Preparing
    case Refuse => pc == Admitting
    case Accept => pc == Admitting
    case Return(_) => pc == Returning
    case Unwind => pc.Unwinding? && pc.left > 0
  }

  predicate WorkerEnabled(pc: WorkerPc, a: WorkerStep) {
    match a
    case Starts => pc == InPool
    case Ends(o) => pc == Executing
    case Publishes => pc.Holding?
    case Notifies => pc == Published
    case Leaves => pc == Notified
  }

  /** A retain may also be tried without holding a reference, while the memory is there. */
  predicate CallerEnabled(s: State, a: CallerStep) {
    match a
    case Loads(_) => !s.worker.NotQueued? && s.refs.destroyed == 0
    case Swaps(t, _) => t in s.refs.seen && s.refs.destroyed == 0
    case Gives(h, _) => Holds(s.refs, h)
    case Releases(h) => Holds(s.refs, h)
    case Peeks(h) => Holds(s.refs, h)
    case Takes(h) => Holds(s.refs, h)
  }

  predicate Enabled(s: State, a: Step) {
    match a
    case BySubmitter(x) => SubmitEnabled(s.submit, x)
    case ByWorker(x) => WorkerEnabled(s.worker, x)
    case ByCaller(x) => CallerEnabled(s, x)
    case Destroys(who) => who in s.refs.dropping
  }

  /** fetch_sub: whoever took the count from one to zero has to destroy the object. */
  function Drop(r: Refs, who: Owner): Refs {
    r.(count := if r.count == 0 then SIZE_MAX else r.count - 1,
       dropping := if r.count == 1 then r.dropping + {who} else r.dropping)
  }

  /** The compare-and-swap loop body of retain. */
  function Swap(r: Refs, t: nat, spurious: bool): Refs
    requires t in r.seen
  {
    var current := r.seen[t];
    if current == 0 || current == SIZE_MAX then r.(seen := r.seen - {t})
    else if r.count == current && !spurious then
      r.(count := r.count + 1, seen := r.seen - {t}, handles := r.handles[r.nextHandle := t],
         nextHandle := r.nextHandle + 1)
    else r.(seen := r.seen[t := r.count])
  }

  function SubmitNext(s: State, a: SubmitStep): State
    requires SubmitEnabled(s.submit, a)
  {
    match a
    case PrepareFails => s.(submit := Unwinding(1))
    case RetainForWorker => s.(submit := Admitting, refs := s.refs.(count := s.refs.count + 1, own := s.refs.own + 1))
    case Refuse => s.(submit := Unwinding(2))
    case Accept =>
      s.(submit := Returning, worker := InPool, refs := s.refs.(own := Less(s.refs.own), workers := s.refs.workers + 1))
    case Return(t) =>
      s.(submit := Returned,
         refs := s.refs.(own := Less(s.refs.own), handles := s.refs.handles[s.refs.nextHandle := t],
                         nextHandle := s.refs.nextHandle + 1))
    case Unwind =>
      s.(submit := Unwinding(s.submit.left - 1), refs := Drop(s.refs, Submitter).(own := Less(s.refs.own)))
  }

  function Less(n: nat): nat { if n == 0 then 0 else n - 1 }

  function WorkerNext(s: State, a: WorkerStep): State
    requires WorkerEnabled(s.worker, a)
  {
    match a
    case Starts => s.(worker := Executing, results := s.results.(status := Running))
    case Ends(o) => s.(worker := Holding(o), results := s.results.(created := s.results.created + Trees(o.trees)))
    case Publishes =>
      var o := s.worker.outcome;
      s.(worker := Published, results := s.results.(code := o.code, trees := o.trees, status := StatusOf(o),
                                                    published := Some(o)))
    case Notifies => s.(worker := Notified)
    case Leaves => s.(worker := Gone, refs := Drop(s.refs, Worker).(workers := Less(s.refs.workers)))
  }

  function Peek(r: Results): Results {
    if !Terminal(r.status) || r.taken then r else r.(peeks := r.peeks + [r.trees])
  }

  function Take(r: Results): Results {
    if !Terminal(r.status) || r.taken then r
    else r.(taken := true, takes := r.takes + [r.trees], trees := NO_PAIR)
  }

  function CallerNext(s: State, a: CallerStep): State
    requires CallerEnabled(s, a)
  {
    match a
    case Loads(t) => s.(refs := s.refs.(seen := s.refs.seen[t := s.refs.count]))
    case Swaps(t, spurious) => s.(refs := Swap(s.refs, t, spurious))
    case Gives(h, t) => s.(refs := s.refs.(handles := s.refs.handles[h := t]))
    case Releases(h) => s.(refs := Drop(s.refs, Caller(s.refs.handles[h])).(handles := s.refs.handles - {h}))
    case Peeks(h) => s.(results := Peek(s.results))
    case Takes(h) => s.(results := Take(s.results))
  }

  function Destroy(s: State, who: Owner): State {
    State(s.refs.(dropping := s.refs.dropping - {who}, destroyed := s.refs.destroyed + 1),
          s.results.(freed := s.results.freed + Trees(s.results.trees), trees := NO_PAIR), s.submit, s.worker)
  }

  function Next(s: State, a: Step): State
    requires Enabled(s, a)
  {
    match a
    case BySubmitter(x) => SubmitNext(s, x)
    case ByWorker(x) => WorkerNext(s, x)
    case ByCaller(x) => CallerNext(s, x)
    case Destroys(who) => Destroy(s, who)
  }

  // ----- The invariant -----

  /** The count is the number of live references, and the object is destroyed once, by the
      one thread that took the count to zero. */
  ghost predicate CountInv(r: Refs) {
    && r.count == r.Live() <= SIZE_MAX
    && |r.dropping| + r.destroyed == (if r.count == 0 then 1 else 0)
    && (forall h :: h in r.handles ==> h < r.nextHandle)
  }

  predicate WorkerHolds(pc: WorkerPc) { !pc.NotQueued? && !pc.Gone? }

  ghost predicate OwnerInv(r: Refs, submit: SubmitPc, worker: WorkerPc) {
    && r.workers == (if WorkerHolds(worker) then 1 else 0)
    && r.own == (match submit
                 case Preparing => 1 case Admitting => 2 case Returning => 1 case Returned => 0
                 case Unwinding(left) => left)
    && (worker.NotQueued? <==> !submit.Returning? && !submit.Returned?)
    && (worker.NotQueued? ==> r.handles == map[] && r.seen == map[])
    && (submit.Unwinding? ==> submit.left <= 2)
  }

  ghost predicate StatusInv(r: Results, worker: WorkerPc) {
    match worker
    case NotQueued => r.status == Queued && r.published.None?
    case InPool => r.status == Queued && r.published.None?
    case Executing => r.status == Running && r.published.None?
    case Holding(_) => r.status == Running && r.published.None?
    case _ => r.published.Some? && r.status == StatusOf(r.published.value) && r.code == r.published.value.code
  }

  ghost predicate ResultInv(r: Results, destroyed: nat) {
    && (r.published.None? ==> !r.taken && r.trees == NO_PAIR && r.takes == [] && r.peeks == [])
    && (r.published.Some? ==>
          && (forall i :: 0 <= i < |r.peeks| ==> r.peeks[i] == r.published.value.trees)
          && r.takes == (if r.taken then [r.published.value.trees] else [])
          && r.trees == (if r.taken || destroyed > 0 then NO_PAIR else r.published.value.trees))
  }

  function WorkerTrees(pc: WorkerPc): multiset<Tree> {
    if pc.Holding? then Trees(pc.outcome.trees) else multiset{}
  }

  function TakenTrees(takes: seq<Pair>): multiset<Tree> {
    if takes == [] then multiset{} else TakenTrees(takes[..|takes| - 1]) + Trees(takes[|takes| - 1])
  }

  function PublishedTrees(r: Results): multiset<Tree> {
    if r.published.None? then multiset{} else Trees(r.published.value.trees)
  }

  /** Every tree ever created is in exactly one place. */
  ghost predicate TreeInv(r: Results, worker: WorkerPc) {
    && r.created == WorkerTrees(worker) + Trees(r.trees) + TakenTrees(r.takes) + r.freed
    && r.created == WorkerTrees(worker) + PublishedTrees(r)
  }

  ghost predicate Inv(s: State) {
    && CountInv(s.refs) && OwnerInv(s.refs, s.submit, s.worker)
    && StatusInv(s.results, s.worker) && ResultInv(s.results, s.refs.destroyed) && TreeInv(s.results, s.worker)
  }

  lemma InitialHolds()
    ensures Inv(INITIAL)
  {
  }

  // ----- Every step keeps it -----

  /** Whoever holds a reference uses an object that exists. */
  lemma CallerIsAlive(r: Refs, handle: nat)
    requires CountInv(r) && Holds(r, handle)
    ensures r.count > 0 && r.destroyed == 0 && r.dropping == {}
  {
    assert |r.handles - {handle}| == |r.handles| - 1;
  }

  lemma SubmitRefs(s: State, a: SubmitStep)
    requires CountInv(s.refs) && OwnerInv(s.refs, s.submit, s.worker) && SubmitEnabled(s.submit, a)
    ensures var s' := SubmitNext(s, a);
      CountInv(s'.refs) && OwnerInv(s'.refs, s'.submit, s'.worker) && s'.refs.destroyed == s.refs.destroyed
  {
  }

  lemma SubmitKeeps(s: State, a: SubmitStep)
    requires Inv(s) && SubmitEnabled(s.submit, a)
    ensures Inv(SubmitNext(s, a))
  {
    hide StatusOf, Trees, TakenTrees, ResultInv, CountInv;
    SubmitRefs(s, a);
  }

  lemma PublishKeeps(r: Results, o: Outcome)
    requires StatusInv(r, Holding(o)) && ResultInv(r, 0) && TreeInv(r, Holding(o))
    ensures var r' := r.(code := o.code, trees := o.trees, status := StatusOf(o), published := Some(o));
      StatusInv(r', Published) && ResultInv(r', 0) && TreeInv(r', Published)
  {
    assert Trees(NO_PAIR) == multiset{};
    hide StatusOf, Trees, TakenTrees;
    Regroup(Trees(o.trees), multiset{}, TakenTrees(r.takes), r.freed);
  }

  lemma EndKeeps(r: Results, o: Outcome)
    requires StatusInv(r, Executing) && TreeInv(r, Executing)
    ensures var r' := r.(created := r.created + Trees(o.trees));
      StatusInv(r', Holding(o)) && TreeInv(r', Holding(o))
  {
    hide Trees, TakenTrees, StatusOf;
  }

  lemma WorkerRefs(s: State, a: WorkerStep)
    requires CountInv(s.refs) && OwnerInv(s.refs, s.submit, s.worker) && WorkerEnabled(s.worker, a)
    ensures var s' := WorkerNext(s, a);
      CountInv(s'.refs) && OwnerInv(s'.refs, s'.submit, s'.worker) && s'.refs.destroyed == s.refs.destroyed == 0
  {
    hide Trees, StatusOf;
  }

  lemma WorkerKeeps(s: State, a: WorkerStep)
    requires Inv(s) && WorkerEnabled(s.worker, a)
    ensures Inv(WorkerNext(s, a))
  {
    hide StatusOf, Trees, TakenTrees, CountInv, OwnerInv;
    WorkerRefs(s, a);
    match a
    case Starts =>
    case Ends(o) => EndKeeps(s.results, o);
    case Publishes => PublishKeeps(s.results, s.worker.outcome);
    case Notifies =>
    case Leaves =>
  }

  /** Moving one part of a sum into another. */
  lemma Regroup(a: multiset<Tree>, b: multiset<Tree>, c: multiset<Tree>, d: multiset<Tree>)
    ensures a + b + c + d == a + multiset{} + (c + b) + d
    ensures a + b + c + d == a + multiset{} + c + (d + b)
    ensures a + multiset{} + c + d == multiset{} + a + c + d
    ensures a + multiset{} == multiset{} + a
  {
  }

  lemma TakenGrow(takes: seq<Pair>, p: Pair)
    ensures TakenTrees(takes + [p]) == TakenTrees(takes) + Trees(p)
  {
    assert (takes + [p])[..|takes|] == takes;
  }

  lemma TakeMovesTrees(r: Results, worker: WorkerPc)
    requires TreeInv(r, worker)
    ensures TreeInv(Take(r), worker)
  {
    TakenGrow(r.takes, r.trees);
    assert Trees(NO_PAIR) == multiset{};
    hide Trees, TakenTrees, WorkerTrees;
    Regroup(WorkerTrees(worker), Trees(r.trees), TakenTrees(r.takes), r.freed);
  }

  lemma TakeKeeps(r: Results, worker: WorkerPc)
    requires StatusInv(r, worker) && ResultInv(r, 0) && TreeInv(r, worker)
    ensures StatusInv(Take(r), worker) && ResultInv(Take(r), 0) && TreeInv(Take(r), worker)
  {
    hide TreeInv, StatusOf;
    TakeMovesTrees(r, worker);
  }

  lemma PeekKeeps(r: Results, worker: WorkerPc)
    requires StatusInv(r, worker) && ResultInv(r, 0) && TreeInv(r, worker)
    ensures StatusInv(Peek(r), worker) && ResultInv(Peek(r), 0) && TreeInv(Peek(r), worker)
  {
    hide Trees, TakenTrees, StatusOf, WorkerTrees;
  }

  lemma CallerRefs(s: State, a: CallerStep)
    requires CountInv(s.refs) && OwnerInv(s.refs, s.submit, s.worker) && CallerEnabled(s, a)
    ensures var s' := CallerNext(s, a);
      CountInv(s'.refs) && OwnerInv(s'.refs, s'.submit, s'.worker) && s'.refs.destroyed == s.refs.destroyed
  {
    hide Peek, Take;
    if a.Releases? { assert |s.refs.handles - {a.handle}| == |s.refs.handles| - 1; }
  }

  lemma CallerKeeps(s: State, a: CallerStep)
    requires Inv(s) && CallerEnabled(s, a)
    ensures Inv(CallerNext(s, a))
  {
    hide CountInv, OwnerInv, ResultInv, TreeInv, StatusInv, Peek, Take, Swap, Drop;
    CallerRefs(s, a);
    match a
    case Peeks(h) =>
      CallerIsAlive(s.refs, h);
      PeekKeeps(s.results, s.worker);
    case Takes(h) =>
      CallerIsAlive(s.refs, h);
      TakeKeeps(s.results, s.worker);
    case _ =>
  }

  lemma DestroyFreesTrees(r: Results, worker: WorkerPc)
    requires TreeInv(r, worker)
    ensures TreeInv(r.(freed := r.freed + Trees(r.trees), trees := NO_PAIR), worker)
  {
    assert Trees(NO_PAIR) == multiset{};
    hide Trees, TakenTrees, WorkerTrees;
    Regroup(WorkerTrees(worker), Trees(r.trees), TakenTrees(r.takes), r.freed);
  }

  lemma DestroyRefs(r: Refs, who: Owner)
    requires CountInv(r) && who in r.dropping
    ensures r.count == 0 && r.destroyed == 0
    ensures CountInv(r.(dropping := r.dropping - {who}, destroyed := r.destroyed + 1))
  {
    assert |r.dropping - {who}| == |r.dropping| - 1;
  }

  lemma DestroyKeeps(s: State, who: Owner)
    requires Inv(s) && who in s.refs.dropping
    ensures Inv(Destroy(s, who)) && s.refs.count == 0 && s.refs.destroyed == 0
  {
    hide CountInv, TreeInv, StatusOf, Trees;
    DestroyRefs(s.refs, who);
    DestroyFreesTrees(s.results, s.worker);
  }

  lemma StepKeeps(s: State, a: Step)
    requires Inv(s) && Enabled(s, a)
    ensures Inv(Next(s, a))
  {
    hide Inv, SubmitNext, WorkerNext, CallerNext, Destroy, SubmitEnabled, WorkerEnabled, CallerEnabled;
    match a
    case BySubmitter(x) => SubmitKeeps(s, x);
    case ByWorker(x) => WorkerKeeps(s, x);
    case ByCaller(x) => CallerKeeps(s, x);
    case Destroys(who) => DestroyKeeps(s, who);
  }

  // ----- Whole runs -----

  predicate Possible(s: State, steps: seq<Step>)
    decreases |steps|
  {
    steps == [] || (Enabled(s, steps[0]) && Possible(Next(s, steps[0]), steps[1..]))
  }

  function After(s: State, steps: seq<Step>): State
    requires Possible(s, steps)
    decreases |steps|
  {
    if steps == [] then s else After(Next(s, steps[0]), steps[1..])
  }

  lemma {:induction false} RunKeeps(s: State, steps: seq<Step>)
    requires Inv(s) && Possible(s, steps)
    ensures Inv(After(s, steps))
    decreases |steps|
  {
    hide Inv, Enabled, Next;
    if steps != [] {
      StepKeeps(s, steps[0]);
      RunKeeps(Next(s, steps[0]), steps[1..]);
    }
  }

  ghost predicate Reachable(s: State) {
    exists steps :: Possible(INITIAL, steps) && After(INITIAL, steps) == s
  }

  lemma ReachableKeeps(s: State)
    requires Reachable(s)
    ensures Inv(s)
  {
    var steps :| Possible(INITIAL, steps) && After(INITIAL, steps) == s;
    InitialHolds();
    RunKeeps(INITIAL, steps);
  }

  /** In every reachable state the count is the number of live references; the object is
      destroyed at most once, never while a reference lives, and exactly once when the last
      one is gone and its dropper has finished. The reference that submit returns is live
      until its caller gives it up, even if the worker is already gone. */
  lemma Lifetime(s: State)
    requires Reachable(s)
    ensures s.refs.count == s.refs.Live() <= SIZE_MAX && s.refs.destroyed <= 1
    ensures s.refs.Live() > 0 ==> s.refs.destroyed == 0 && s.refs.dropping == {}
    ensures s.refs.Live() == 0 && s.refs.dropping == {} ==> s.refs.destroyed == 1
    ensures s.submit.Returning? || s.refs.handles != map[] || WorkerHolds(s.worker) ==> s.refs.destroyed == 0
  {
    hide StatusInv, ResultInv, TreeInv;
    ReachableKeeps(s);
    if s.refs.handles != map[] {
      var h :| h in s.refs.handles;
      CallerIsAlive(s.refs, h);
    }
  }

  /** A failed preparation, a refused admission or a full pool: no worker ever runs, no result
      exists, and unwinding both references destroys the object once. */
  lemma FailedSubmission(s: State)
    requires Reachable(s) && s.submit.Unwinding?
    ensures s.worker.NotQueued? && s.results.status.Queued? && s.results.takes == [] && s.results.created == multiset{}
    ensures s.submit.left == 0 && s.refs.dropping == {} <==> s.refs.destroyed == 1
    ensures s.submit.left > 0 ==> s.refs.destroyed == 0
  {
    ReachableKeeps(s);
  }

  /** At most one take succeeds; what it moves is what was published and what every earlier
      peek showed. */
  lemma MovedOnce(s: State)
    requires Reachable(s)
    ensures |s.results.takes| <= 1
    ensures forall i :: 0 <= i < |s.results.takes| ==>
      s.results.published.Some? && s.results.takes[i] == s.results.published.value.trees
    ensures forall i, j :: 0 <= i < |s.results.peeks| && 0 <= j < |s.results.takes| ==>
      s.results.peeks[i] == s.results.takes[j]
  {
    ReachableKeeps(s);
  }

  /** After destruction every tree that was ever created either went to the one taker or was
      freed by the destruction, none twice and none forgotten. */
  lemma TreesAccounted(s: State)
    requires Reachable(s) && s.refs.destroyed == 1
    ensures s.results.created == PublishedTrees(s.results)
    ensures s.results.taken ==>
      s.results.published.Some? && s.results.takes == [s.results.published.value.trees] && s.results.freed == multiset{}
    ensures !s.results.taken ==> s.results.takes == [] && s.results.freed == s.results.created
  {
    ReachableKeeps(s);
    assert s.results.takes[..0] == [];
  }

  // ----- What no step undoes -----

  lemma StatusStep(s: State, a: Step)
    requires Inv(s) && Enabled(s, a)
    ensures var now, next := s.results.status, Next(s, a).results.status;
      now == next || (now.Queued? && next.Running?) || (now.Running? && Terminal(next))
    ensures s.results.published.Some? ==> Next(s, a).results.published == s.results.published
  {
    hide CountInv, OwnerInv, ResultInv, TreeInv;
  }

  /** The status only moves forward, and a terminal status, once published, never changes. */
  lemma {:induction false} StatusForward(s: State, steps: seq<Step>)
    requires Inv(s) && Possible(s, steps)
    ensures s.results.status != Queued ==> After(s, steps).results.status != Queued
    ensures Terminal(s.results.status) ==> After(s, steps).results.status == s.results.status
    ensures s.results.published.Some? ==> After(s, steps).results.published == s.results.published
    decreases |steps|
  {
    hide Inv, Enabled, Next;
    if steps != [] {
      StatusStep(s, steps[0]);
      StepKeeps(s, steps[0]);
      StatusForward(Next(s, steps[0]), steps[1..]);
    }
  }

  lemma DeadStep(s: State, a: Step)
    requires Inv(s) && Enabled(s, a) && s.refs.count == 0
    ensures Next(s, a).refs.count == 0
  {
    hide StatusInv, ResultInv, TreeInv;
    assert |s.refs.handles| == 0;
  }

  /** A count of zero stays zero: no retain, however it interleaves, brings an object back. */
  lemma {:induction false} NeverResurrected(s: State, steps: seq<Step>)
    requires Inv(s) && Possible(s, steps) && s.refs.count == 0
    ensures After(s, steps).refs.count == 0
    decreases |steps|
  {
    hide Inv, Enabled, Next;
    if steps != [] {
      DeadStep(s, steps[0]);
      StepKeeps(s, steps[0]);
      NeverResurrected(Next(s, steps[0]), steps[1..]);
    }
  }

  // ----- What the steps achieve -----

  /** A first take of a terminal execution moves exactly what was published; any other take, of a
      running execution or after a take, changes nothing. */
  lemma TakeSucceeds(s: State, h: nat)
    requires Reachable(s) && h in s.refs.handles
    ensures Enabled(s, ByCaller(Takes(h)))
    ensures var r, s' := s.results, Next(s, ByCaller(Takes(h)));
      if r.published.Some? && !r.taken then
        s' == s.(results := r.(taken := true, takes := [r.published.value.trees], trees := Pair(None, None)))
      else s' == s
  {
    hide CountInv, TreeInv, StatusOf;
    ReachableKeeps(s);
    CallerIsAlive(s.refs, h);
  }

  /** A peek shows what was published, as long as nobody took it, and changes nothing else. */
  lemma PeekShows(s: State, h: nat)
    requires Reachable(s) && h in s.refs.handles
    ensures Enabled(s, ByCaller(Peeks(h)))
    ensures var r, s' := s.results, Next(s, ByCaller(Peeks(h)));
      if r.published.Some? && !r.taken then s' == s.(results := r.(peeks := r.peeks + [r.published.value.trees]))
      else s' == s
  {
    hide CountInv, TreeInv, StatusOf;
    ReachableKeeps(s);
    CallerIsAlive(s.refs, h);
  }

  /** A retain whose swap meets the live count that it has read gives its caller one more reference,
      under a new handle; a dead or saturated count is refused; otherwise the count is read again. */
  lemma RetainSucceeds(s: State, t: nat, spurious: bool)
    requires Reachable(s) && t in s.refs.seen && s.refs.destroyed == 0
    ensures Enabled(s, ByCaller(Swaps(t, spurious)))
    ensures var r, s' := s.refs, Next(s, ByCaller(Swaps(t, spurious)));
      if r.seen[t] == 0 || r.seen[t] == 0xffff_ffff_ffff_ffff then s' == s.(refs := r.(seen := r.seen - {t}))
      else if r.seen[t] == r.count && !spurious then
        && r.nextHandle !in r.handles
        && s' == s.(refs := r.(count := r.count + 1, seen := r.seen - {t}, handles := r.handles[r.nextHandle := t],
                               nextHandle := r.nextHandle + 1))
      else s' == s.(refs := r.(seen := r.seen[t := r.count]))
  {
    hide StatusInv, ResultInv, TreeInv;
    ReachableKeeps(s);
  }

  /** Before a swap the count is read; a reference that is handed on belongs to its new holder. */
  lemma LoadReads(s: State, t: nat)
    requires Reachable(s) && !s.worker.NotQueued? && s.refs.destroyed == 0
    ensures Enabled(s, ByCaller(Loads(t)))
    ensures Next(s, ByCaller(Loads(t))) == s.(refs := s.refs.(seen := s.refs.seen[t := s.refs.count]))
    ensures forall h :: h in s.refs.handles ==>
      Next(s, ByCaller(Gives(h, t))) == s.(refs := s.refs.(handles := s.refs.handles[h := t]))
  {
  }

  /** A reference given up lowers the count by one; the last one makes its caller destroy the object. */
  lemma ReleaseLowers(s: State, h: nat)
    requires Reachable(s) && h in s.refs.handles
    ensures Enabled(s, ByCaller(Releases(h)))
    ensures var r, s' := s.refs, Next(s, ByCaller(Releases(h)));
      && s'.refs.count + 1 == r.count
      && s' == s.(refs := r.(count := s'.refs.count, handles := r.handles - {h},
                             dropping := if r.count == 1 then {Caller(r.handles[h])} else {}))
  {
    hide StatusInv, ResultInv, TreeInv;
    ReachableKeeps(s);
    CallerIsAlive(s.refs, h);
  }

  /** The published outcome is what the worker computed, and it alone decides the status: the code
      first, then the text of the run's summary. Before it, the status is queued or running. */
  lemma StatusTells(s: State)
    requires Reachable(s)
    ensures var r := s.results;
      && (r.published.None? <==> r.status == Queued || r.status == Running)
      && (r.status == Running <==> s.worker.Executing? || s.worker.Holding?)
      && (r.published.Some? ==>
            var o := r.published.value;
            && r.code == o.code
            && (r.status == Completed <==> o.code == 0 && o.report == SaysCompleted)
            && (r.status == Interrupted <==> o.code == 0 && o.report == SaysInterrupted)
            && (r.status == Cancelled <==> o.code == 0 && o.report == SaysCancelled)
            && (r.status == TimedOut <==> o.code == 0 && o.report == SaysTimedOut)
            && (r.status == Failed <==> o.code != 0 || o.report == SaysOther || o.report == NoReport))
  {
    hide CountInv, OwnerInv, ResultInv, TreeInv;
    ReachableKeeps(s);
  }

  /** The worker publishes exactly the outcome of its run. */
  lemma PublishTells(s: State)
    requires Reachable(s) && s.worker.Holding?
    ensures var s' := Next(s, ByWorker(Publishes));
      s'.results.published == Some(s.worker.outcome) && s'.results.trees == s.worker.outcome.trees && !s'.results.taken
  {
    hide CountInv, OwnerInv, TreeInv, StatusOf;
    ReachableKeeps(s);
  }

  // ----- Nothing leaks -----

  /** What is left to do until the object is gone, if nobody retains it again. */
  ghost function Remaining(s: State): nat {
    (match s.submit
     case Preparing => 3 case Admitting => 5 case Returning => 3 case Returned => 0 case Unwinding(left) => 2 * left)
    + (match s.worker
       case NotQueued => 0 case InPool => 6 case Executing => 5 case Holding(_) => 4 case Published => 3
       case Notified => 2 case Gone => 0)
    + 2 * |s.refs.handles| + |s.refs.dropping|
  }

  /** The next step of submission, of the worker, of a holder that gives up, or of the destroyer. */
  lemma Onward(s: State) returns (a: Step)
    requires Inv(s) && s.refs.destroyed == 0
    ensures Enabled(s, a) && Remaining(Next(s, a)) < Remaining(s)
  {
    hide Inv, Enabled, Next, Remaining;
    if !s.submit.Returned? && !(s.submit.Unwinding? && s.submit.left == 0) {
      a := SubmitOnward(s);
    } else if WorkerHolds(s.worker) {
      a := WorkerOnward(s);
    } else {
      a := LastOnward(s);
    }
  }

  lemma SubmitOnward(s: State) returns (a: Step)
    requires Inv(s) && s.refs.destroyed == 0
    requires !s.submit.Returned? && !(s.submit.Unwinding? && s.submit.left == 0)
    ensures Enabled(s, a) && Remaining(Next(s, a)) < Remaining(s)
  {
    hide StatusInv, ResultInv, TreeInv, StatusOf, Trees;
    a := BySubmitter(match s.submit
                     case Preparing => PrepareFails case Admitting => Refuse case Returning => Return(0)
                     case _ => Unwind);
    assert s.submit.Returning? ==> s.refs.nextHandle !in s.refs.handles;
  }

  lemma WorkerOnward(s: State) returns (a: Step)
    requires Inv(s) && WorkerHolds(s.worker)
    ensures Enabled(s, a) && Remaining(Next(s, a)) < Remaining(s)
  {
    hide StatusInv, ResultInv, TreeInv, StatusOf, Trees;
    a := ByWorker(match s.worker
                  case InPool => Starts case Executing => Ends(Outcome(0, NO_PAIR, NoReport))
                  case Holding(_) => Publishes case Published => Notifies case _ => Leaves);
  }

  lemma LastOnward(s: State) returns (a: Step)
    requires Inv(s) && s.refs.destroyed == 0 && !WorkerHolds(s.worker)
    requires s.submit.Returned? || (s.submit.Unwinding? && s.submit.left == 0)
    ensures Enabled(s, a) && Remaining(Next(s, a)) < Remaining(s)
  {
    hide StatusInv, ResultInv, TreeInv, StatusOf, Trees;
    if h :| h in s.refs.handles {
      a := ByCaller(Releases(h));
      assert |s.refs.handles - {h}| == |s.refs.handles| - 1;
    } else {
      assert s.refs.handles == map[] && |s.refs.dropping| == 1;
      var who :| who in s.refs.dropping;
      a := Destroys(who);
      assert |s.refs.dropping - {who}| == 0;
    }
  }

  /** From every reachable state on, however submission, worker and callers have interleaved, giving up
      all references lets the object be destroyed: no reference is lost and no step is stuck. */
  lemma {:induction false} CanFinish(s: State) returns (steps: seq<Step>)
    requires Inv(s)
    ensures Possible(s, steps) && After(s, steps).refs.destroyed == 1
    decreases Remaining(s)
  {
    if s.refs.destroyed > 0 {
      steps := [];
    } else {
      var a := Onward(s);
      StepKeeps(s, a);
      hide Inv, Enabled, Next, Remaining;
      var rest := CanFinish(Next(s, a));
      steps := [a] + rest;
    }
  }
}
