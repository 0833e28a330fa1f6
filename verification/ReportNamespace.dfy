/** Any number of report runs, interleaved at their store creates, over one Host store. */
module ReportNamespace {
  import opened Collections
  import opened ReportKeys
  import opened ReportRecords
  import opened ReportTasks

  datatype StoreKey = StoreKey(collection: Collection, key: string)
  type Store = map<StoreKey, Record>

  function KeyOf(id: string, slot: Option<nat>): StoreKey
    requires slot.Some? ==> slot.value < 16
  {
    if slot.None? then StoreKey(Manifests, id) else StoreKey(CollectionOf(slot.value), Key(id, SUFFIXES[slot.value]))
  }

  lemma KeyOfInjective(id: string, slot: Option<nat>, id': string, slot': Option<nat>)
    requires (slot.Some? ==> slot.value < 16) && (slot'.Some? ==> slot'.value < 16)
    requires KeyOf(id, slot) == KeyOf(id', slot')
    ensures id == id' && slot == slot'
  {
    if slot.Some? && slot'.Some? {
      KeyInjective(id, slot.value, id', slot'.value);
    }
  }

  function Get(store: Store, key: StoreKey): Option<Record> {
    if key in store then Some(store[key]) else None
  }

  /** What an inspection of this report would read. */
  function ViewFor(store: Store, id: string): (v: View)
    ensures v.Valid()
  {
    View(Get(store, KeyOf(id, None)), seq(16, i requires 0 <= i < 16 => Get(store, KeyOf(id, Some(i)))))
  }

  /** One run: the report id it uses, whether its manifest was acknowledged, what it committed. */
  datatype RunState = RunState(id: string, reserved: bool, log: seq<Write>)

  datatype System = System(store: Store, runs: seq<RunState>)

  datatype Action =
    | Begin(id: string)
    | Create(run: nat, write: Write, answer: Answer)

  /** A run creates its manifest first and phase records only under an acknowledged manifest. That
      the report writer keeps this rule is proved in ReportSystem. */
  predicate Enabled(s: System, a: Action) {
    a.Create? ==>
      && a.run < |s.runs| && ValidWrite(a.write)
      && (a.write.slot.Some? ==> s.runs[a.run].reserved)
  }

  /** The atomic create: an existing key is refused, whatever else would have happened. */
  function Step(s: System, a: Action): System
    requires Enabled(s, a)
  {
    match a
    case Begin(id) => s.(runs := s.runs + [RunState(id, false, [])])
    case Create(run, write, answer) =>
      var r, key := s.runs[run], KeyOf(s.runs[run].id, write.slot);
      if key in s.store || answer.Refused? then s
      else System(s.store[key := write.record],
                  s.runs[run := RunState(r.id, r.reserved || answer.Ack?, r.log + [write])])
  }

  predicate Possible(s: System, actions: seq<Action>)
    decreases |actions|
  {
    actions == [] || (Enabled(s, actions[0]) && Possible(Step(s, actions[0]), actions[1..]))
  }

  function After(s: System, actions: seq<Action>): System
    requires Possible(s, actions)
    decreases |actions|
  {
    if actions == [] then s else After(Step(s, actions[0]), actions[1..])
  }

  // ----- The invariant -----

  ghost predicate RunOk(s: System, r: nat)
    requires r < |s.runs|
  {
    var run := s.runs[r];
    && ValidLog(run.log)
    && (run.reserved ==> run.log != [])
    && (run.log != [] ==> run.log[0].slot.None? && ViewFor(s.store, run.id) == ViewOf(run.log))
  }

  ghost predicate Invariant(s: System) {
    && (forall r :: 0 <= r < |s.runs| ==> RunOk(s, r))
    && (forall r, t :: 0 <= r < t < |s.runs| && s.runs[r].id == s.runs[t].id ==>
        s.runs[r].log == [] || s.runs[t].log == [])
    && (forall id {:trigger ViewFor(s.store, id)} :: ViewFor(s.store, id) != EMPTY_VIEW ==> Owner(s, id))
  }

  /** Some run committed something under this id. */
  ghost predicate Owner(s: System, id: string) {
    exists r :: 0 <= r < |s.runs| && s.runs[r].id == id && s.runs[r].log != []
  }

  lemma ViewAfterCreate(store: Store, id: string, w: Write, id': string)
    requires ValidWrite(w)
    ensures var store' := store[KeyOf(id, w.slot) := w.record];
      ViewFor(store', id') == if id' == id then Apply(ViewFor(store, id), w) else ViewFor(store, id')
  {
    var store' := store[KeyOf(id, w.slot) := w.record];
    var v, v' := ViewFor(store, id'), ViewFor(store', id');
    if KeyOf(id', None) == KeyOf(id, w.slot) { KeyOfInjective(id', None, id, w.slot); }
    forall i | 0 <= i < 16
      ensures v'.p[i] == if id' == id && w.slot == Some(i) then Some(w.record) else v.p[i]
    {
      if KeyOf(id', Some(i)) == KeyOf(id, w.slot) { KeyOfInjective(id', Some(i), id, w.slot); }
    }
    assert v'.p == if id' == id then Apply(v, w).p else v.p;
  }

  lemma {:induction false} ManifestStays(log: seq<Write>)
    requires ValidLog(log) && log != [] && log[0].slot.None?
    ensures ViewOf(log).manifest.Some?
  {
    if |log| > 1 { ManifestStays(log[..|log| - 1]); }
  }

  lemma LogExtends(log: seq<Write>, w: Write)
    requires ValidLog(log) && ValidWrite(w)
    ensures ValidLog(log + [w]) && ViewOf(log + [w]) == Apply(ViewOf(log), w)
  {
    assert (log + [w])[..|log|] == log;
  }

  /** Only the run that reserved an id can commit under it; a manifest only under a free id. */
  lemma CommitterIsAlone(s: System, run: nat, w: Write)
    requires Invariant(s) && run < |s.runs| && ValidWrite(w) && (w.slot.Some? ==> s.runs[run].reserved)
    requires KeyOf(s.runs[run].id, w.slot) !in s.store
    ensures RunOk(s, run) && ViewFor(s.store, s.runs[run].id) == ViewOf(s.runs[run].log)
    ensures w.slot.None? ==> s.runs[run].log == []
    ensures forall t :: 0 <= t < |s.runs| && t != run && s.runs[t].id == s.runs[run].id ==> s.runs[t].log == []
  {
    var id := s.runs[run].id;
    assert RunOk(s, run);
    if w.slot.None? {
      assert ViewFor(s.store, id).manifest.None?;
      forall t | 0 <= t < |s.runs| && s.runs[t].id == id
        ensures s.runs[t].log == []
      {
        assert RunOk(s, t);
        if s.runs[t].log != [] { ManifestStays(s.runs[t].log); }
      }
      assert !Owner(s, id);
    }
  }

  lemma StepKeeps(s: System, a: Action)
    requires Invariant(s) && Enabled(s, a)
    ensures Invariant(Step(s, a))
  {
    var s' := Step(s, a);
    if a.Begin? {
      forall r | 0 <= r < |s'.runs|
        ensures RunOk(s', r)
      {
        if r < |s.runs| { assert RunOk(s, r); }
      }
      OwnersStay(s, s');
    } else if s' != s {
      CommitKeeps(s, a.run, a.write, a.answer);
    }
  }

  lemma OwnersStay(s: System, s': System)
    requires s'.store == s.store && |s'.runs| >= |s.runs| && s'.runs[..|s.runs|] == s.runs
    requires forall id {:trigger ViewFor(s.store, id)} :: ViewFor(s.store, id) != EMPTY_VIEW ==> Owner(s, id)
    ensures forall id {:trigger ViewFor(s'.store, id)} :: ViewFor(s'.store, id) != EMPTY_VIEW ==> Owner(s', id)
  {
  }

  lemma CommitKeeps(s: System, run: nat, w: Write, answer: Answer)
    requires Invariant(s) && Enabled(s, Create(run, w, answer)) && !answer.Refused?
    requires KeyOf(s.runs[run].id, w.slot) !in s.store
    ensures Invariant(Step(s, Create(run, w, answer)))
  {
    hide ViewFor, ViewOf, Apply, KeyOf;
    var s' := Step(s, Create(run, w, answer));
    var id := s.runs[run].id;
    CommitterIsAlone(s, run, w);
    assert RunOk(s, run);
    LogExtends(s.runs[run].log, w);
    forall other: string
      ensures ViewFor(s'.store, other) == if other == id then ViewOf(s'.runs[run].log) else ViewFor(s.store, other)
    {
      ViewAfterCreate(s.store, id, w, other);
    }
    forall r | 0 <= r < |s'.runs|
      ensures RunOk(s', r)
    {
      assert RunOk(s, r);
    }
    forall other: string | ViewFor(s'.store, other) != EMPTY_VIEW
      ensures Owner(s', other)
    {
      if other == id {
        assert s'.runs[run].log != [];
      } else {
        assert Owner(s, other);
        var r :| 0 <= r < |s.runs| && s.runs[r].id == other && s.runs[r].log != [];
        assert s'.runs[r] == s.runs[r];
      }
    }
  }

  const INITIAL := System(map[], [])

  lemma InitialHolds()
    ensures Invariant(INITIAL)
  {
  }

  lemma {:induction false} RunsKeep(s: System, actions: seq<Action>)
    requires Invariant(s) && Possible(s, actions)
    ensures Invariant(After(s, actions))
    decreases |actions|
  {
    if actions != [] {
      StepKeeps(s, actions[0]);
      RunsKeep(Step(s, actions[0]), actions[1..]);
    }
  }

  /** Over any interleaving of any number of runs, what the store holds under an id is
      exactly what one run committed, and no other run committed anything under it. */
  lemma Exclusive(actions: seq<Action>, id: string)
    requires Possible(INITIAL, actions)
    ensures var s := After(INITIAL, actions);
      || (ViewFor(s.store, id) == EMPTY_VIEW
          && forall r :: 0 <= r < |s.runs| && s.runs[r].id == id ==> s.runs[r].log == [])
      || exists r :: 0 <= r < |s.runs| && s.runs[r].id == id && ValidLog(s.runs[r].log)
           && ViewFor(s.store, id) == ViewOf(s.runs[r].log)
           && forall t :: 0 <= t < |s.runs| && t != r && s.runs[t].id == id ==> s.runs[t].log == []
  {
    hide ViewFor, KeyOf, Step;
    InitialHolds();
    RunsKeep(INITIAL, actions);
    var s := After(INITIAL, actions);
    if r :| 0 <= r < |s.runs| && s.runs[r].id == id && s.runs[r].log != [] {
      assert RunOk(s, r);
    } else {
      assert !Owner(s, id);
    }
  }

  /** At most one run is ever told that it owns an id, and it alone wrote phase records. */
  lemma OneReservation(actions: seq<Action>, r: nat, t: nat)
    requires Possible(INITIAL, actions)
    requires r < t < |After(INITIAL, actions).runs|
    requires After(INITIAL, actions).runs[r].id == After(INITIAL, actions).runs[t].id
    ensures !(After(INITIAL, actions).runs[r].reserved && After(INITIAL, actions).runs[t].reserved)
  {
    hide ViewFor, KeyOf, Step;
    InitialHolds();
    RunsKeep(INITIAL, actions);
    assert RunOk(After(INITIAL, actions), r) && RunOk(After(INITIAL, actions), t);
  }

  /** A create of the owner for a slot it has not used is never refused as a duplicate. */
  lemma OwnKeyIsFree(s: System, r: nat, slot: nat)
    requires Invariant(s) && r < |s.runs| && s.runs[r].reserved && slot < 16
    requires forall i :: 0 <= i < |s.runs[r].log| ==> s.runs[r].log[i].slot != Some(slot)
    ensures KeyOf(s.runs[r].id, Some(slot)) !in s.store
  {
    assert RunOk(s, r);
    UnusedSlot(s.runs[r].log, slot);
    assert ViewFor(s.store, s.runs[r].id).p[slot] == Get(s.store, KeyOf(s.runs[r].id, Some(slot)));
  }

  lemma {:induction false} UnusedSlot(log: seq<Write>, slot: nat)
    requires ValidLog(log) && slot < 16 && forall i :: 0 <= i < |log| ==> log[i].slot != Some(slot)
    ensures ViewOf(log).p[slot].None?
  {
    if log != [] { UnusedSlot(log[..|log| - 1], slot); }
  }
}
