/** Where in the published snapshot a tool journal's call came from. */
module EvidenceOrigin {
  import opened Collections
  import opened TurnKey

  const MAX_ORIGIN_CALLS := 64

  /** A field of a JSON object: missing, of the wrong shape, or there. */
  datatype Field<+T> = Absent | Malformed | Present(value: T)

  /** A call whose id or name is not acceptable text has the error of reading it. */
  datatype Call = Call(id: string, name: string) | BadCall(rc: Error)

  /** An event that is not a readable model event with an array of calls has the error of reading it. */
  datatype SnapshotEvent = ModelEvent(calls: seq<Call>) | BadEvent(rc: Error)

  datatype StepOrigin = StepOrigin(plan: int, step: int)
  datatype AgentState = AgentState(events: Field<seq<SnapshotEvent>>, origin: Field<StepOrigin>) | NotAnObject

  /** The head's state: its own events, its planner and executor versions, and for each plan version
      which of its steps are well formed. */
  datatype Snapshot = Snapshot(root: AgentState, planners: Field<seq<AgentState>>, executors: Field<seq<AgentState>>,
                               plans: seq<seq<bool>>)

  datatype Rc = OK | EINVAL | EPROTO | ENOSPC | EIO
  type Error = rc: Rc | rc != OK witness EPROTO

  // ----- The call of an event -----

  datatype FindResult = Found(index: nat) | Missing | Conflict | Unreadable(rc: Error)

  /** The search from position i on, with what was found before it. */
  function FindFrom(calls: seq<Call>, id: string, name: string, i: nat, found: Option<nat>): FindResult
    requires i <= |calls|
    decreases |calls| - i
  {
    if i == |calls| then (if found.None? then Missing else Found(found.value))
    else if calls[i].BadCall? then Unreadable(calls[i].rc)
    else if calls[i].id != id then FindFrom(calls, id, name, i + 1, found)
    else if found.Some? || calls[i].name != name then Conflict
    else FindFrom(calls, id, name, i + 1, Some(i))
  }

  method FindCall(calls: seq<Call>, id: string, name: string) returns (r: FindResult)
    ensures r == FindFrom(calls, id, name, 0, None)
  {
    var found: Option<nat> := None;
    for i := 0 to |calls|
      invariant FindFrom(calls, id, name, i, found) == FindFrom(calls, id, name, 0, None)
    {
      if calls[i].BadCall? { return Unreadable(calls[i].rc); }
      if calls[i].id != id { continue; }
      if found.Some? || calls[i].name != name { return Conflict; }
      found := Some(i);
    }
    r := if found.None? then Missing else Found(found.value);
  }

  ghost predicate FoundBefore(calls: seq<Call>, id: string, name: string, i: nat, found: Option<nat>)
    requires i <= |calls|
  {
    && (found.Some? ==> found.value < i && calls[found.value] == Call(id, name))
    && forall j :: 0 <= j < i ==> calls[j].Call? && (calls[j].id == id ==> found == Some(j))
  }

  predicate Names(c: Call, id: string) { c.Call? && c.id == id }

  /** Found: all calls are readable and this is the only one with the id, and its name agrees.
      Missing: all are readable and none has the id. Conflict: one has another name, or two
      share the id. Unreadable: one is. */
  ghost predicate FindMeaning(calls: seq<Call>, id: string, name: string, r: FindResult) {
    match r
    case Missing => forall j :: 0 <= j < |calls| ==> calls[j].Call? && calls[j].id != id
    case Found(i) =>
      && i < |calls| && calls[i] == Call(id, name)
      && forall j :: 0 <= j < |calls| ==> calls[j].Call? && (j != i ==> calls[j].id != id)
    case Conflict =>
      || (exists j :: 0 <= j < |calls| && Names(calls[j], id) && calls[j].name != name)
      || (exists j, k :: 0 <= j < k < |calls| && Names(calls[j], id) && Names(calls[k], id))
    case Unreadable(rc) => exists j :: 0 <= j < |calls| && calls[j] == BadCall(rc)
  }

  lemma {:induction false} FindFromMeans(calls: seq<Call>, id: string, name: string, i: nat, found: Option<nat>)
    requires i <= |calls| && FoundBefore(calls, id, name, i, found)
    ensures FindMeaning(calls, id, name, FindFrom(calls, id, name, i, found))
    decreases |calls| - i
  {
    if i < |calls| {
      if calls[i].BadCall? {
        assert calls[i] == BadCall(calls[i].rc);
      } else if calls[i].id != id {
        FindFromMeans(calls, id, name, i + 1, found);
      } else if found.None? && calls[i].name == name {
        FindFromMeans(calls, id, name, i + 1, Some(i));
      } else {
        assert Names(calls[i], id) && (found.Some? ==> Names(calls[found.value], id));
      }
    }
  }

  /** Found and Missing exclude every other outcome, so each happens exactly in its own case. */
  lemma FindMeans(calls: seq<Call>, id: string, name: string)
    ensures FindMeaning(calls, id, name, FindFrom(calls, id, name, 0, None))
  {
    FindFromMeans(calls, id, name, 0, None);
  }

  // ----- The event of a turn key -----

  type ObjectState = a: AgentState | a.AgentState? witness AgentState(Absent, Absent)

  datatype EventResult = Event(calls: seq<Call>, state: ObjectState) | NotInSnapshot | EventError(rc: Error)

  datatype StateResult = State(state: ObjectState) | NoState | StateError

  function StateOf(s: Snapshot, k: Key): StateResult {
    if s.root.NotAnObject? then StateError
    else if k.RootKey? then State(s.root)
    else
      match if k.PlannerKey? then s.planners else s.executors
      case Absent => NoState
      case Malformed => StateError
      case Present(versions) =>
        if k.version >= |versions| then NoState
        else if versions[k.version].NotAnObject? then StateError else State(versions[k.version])
  }

  function EventIn(state: ObjectState, index: nat): EventResult {
    match state.events
    case Absent => NotInSnapshot
    case Malformed => EventError(EPROTO)
    case Present(events) =>
      if index >= |events| then NotInSnapshot
      else match events[index]
        case BadEvent(rc) => EventError(rc)
        case ModelEvent(calls) => if |calls| > MAX_ORIGIN_CALLS then EventError(ENOSPC) else Event(calls, state)
  }

  function EventOf(s: Snapshot, k: Key): EventResult {
    match StateOf(s, k)
    case NoState => NotInSnapshot
    case StateError => EventError(EPROTO)
    case State(state) => EventIn(state, k.event)
  }

  // ----- The workflow step of an event -----

  /** What an event's node says about workflow steps, and the step it links to. */
  datatype StepPart = StepsOff | NotApplicable | Unrecorded | PreparedFor(plan: nat, step: nat) | StepError

  function StepOf(s: Snapshot, k: Key, state: ObjectState, steps: bool): StepPart {
    if !steps then StepsOff
    else if !k.ExecutorKey? then NotApplicable
    else
      match state.origin
      case Absent => Unrecorded
      case Malformed => StepError
      case Present(o) =>
        if 0 <= o.plan < |s.plans| && 0 <= o.step < |s.plans[o.plan]| && s.plans[o.plan][o.step]
        then PreparedFor(o.plan, o.step) else StepError
  }

  // ----- The origin of a journal -----

  /** What a journal's node says about its origin; without the option it says nothing. */
  datatype OriginStatus = NoStatus | UnresolvedIdentity | AbsentFromSnapshot | MatchedOrigin

  datatype Resolution =
    | NoOrigin(status: OriginStatus) | Matched(key: Key, call: nat, step: StepPart) | ResolutionError(rc: Error)

  function Resolve(s: Snapshot, turn: string, callId: string, tool: string, steps: bool, sizeMax: nat): Resolution {
    match Parse(turn, sizeMax)
    case Unresolved => NoOrigin(UnresolvedIdentity)
    case Malformed => ResolutionError(EPROTO)
    case Resolved(k) =>
      match EventOf(s, k)
      case EventError(rc) => ResolutionError(rc)
      case NotInSnapshot => NoOrigin(AbsentFromSnapshot)
      case Event(calls, state) =>
        match FindFrom(calls, callId, tool, 0, None)
        case Missing => NoOrigin(AbsentFromSnapshot)
        case Conflict => ResolutionError(EPROTO)
        case Unreadable(rc) => ResolutionError(rc)
        case Found(i) =>
          var step := StepOf(s, k, state, steps);
          if step.StepError? then ResolutionError(EPROTO) else Matched(k, i, step)
  }

  function StatusFrom(o: Resolution): OriginStatus {
    match o case NoOrigin(status) => status case Matched(_, _, _) => MatchedOrigin case ResolutionError(_) => NoStatus
  }

  /** The reading order of the exporter: the key, the event, its call, its step. */
  method ResolveOrigin(s: Snapshot, turn: string, callId: string, tool: string, steps: bool, sizeMax: nat)
    returns (r: Resolution)
    requires sizeMax >= 9
    ensures r == Resolve(s, turn, callId, tool, steps, sizeMax)
  {
    hide Parse, FindFrom;
    var parsed := ParseTurn(turn, sizeMax);
    if parsed.Unresolved? { return NoOrigin(UnresolvedIdentity); }
    if parsed.Malformed? { return ResolutionError(EPROTO); }
    var event := EventOf(s, parsed.key);
    if event.EventError? { return ResolutionError(event.rc); }
    if event.NotInSnapshot? { return NoOrigin(AbsentFromSnapshot); }
    var call := FindCall(event.calls, callId, tool);
    if call.Unreadable? { return ResolutionError(call.rc); }
    if call.Conflict? { return ResolutionError(EPROTO); }
    if call.Missing? { return NoOrigin(AbsentFromSnapshot); }
    var step := StepOf(s, parsed.key, event.state, steps);
    if step.StepError? { return ResolutionError(EPROTO); }
    r := Matched(parsed.key, call.index, step);
  }

  /** The event and its step depend on the turn key alone, not on which journal names it. */
  lemma SameTurnSameEvent(s: Snapshot, turn: string, call1: string, tool1: string, call2: string, tool2: string,
                          steps: bool, sizeMax: nat)
    requires Resolve(s, turn, call1, tool1, steps, sizeMax).Matched?
    requires Resolve(s, turn, call2, tool2, steps, sizeMax).Matched?
    ensures Resolve(s, turn, call1, tool1, steps, sizeMax).key == Resolve(s, turn, call2, tool2, steps, sizeMax).key
    ensures Resolve(s, turn, call1, tool1, steps, sizeMax).step == Resolve(s, turn, call2, tool2, steps, sizeMax).step
  {
  }

  /** Different turn texts that both match name different snapshot events. */
  lemma DifferentTurnsDiffer(s: Snapshot, turn1: string, turn2: string, call1: string, tool1: string, call2: string,
                             tool2: string, steps: bool, sizeMax: nat)
    requires NulFree(turn1) && NulFree(turn2) && turn1 != turn2
    requires Resolve(s, turn1, call1, tool1, steps, sizeMax).Matched?
    requires Resolve(s, turn2, call2, tool2, steps, sizeMax).Matched?
    ensures Resolve(s, turn1, call1, tool1, steps, sizeMax).key != Resolve(s, turn2, call2, tool2, steps, sizeMax).key
  {
    OneToOne(turn1, turn2, sizeMax);
  }

  // ----- What a match means -----

  /** The state that a key names: the head's own, or the version of the planner or executor. */
  ghost predicate Located(s: Snapshot, key: Key, state: ObjectState) {
    && s.root.AgentState?
    && match key
       case RootKey(_) => state == s.root
       case PlannerKey(v, _) => s.planners.Present? && v < |s.planners.value| && s.planners.value[v] == state
       case ExecutorKey(v, _) => s.executors.Present? && v < |s.executors.value| && s.executors.value[v] == state
  }

  /** The journal's turn text is the canonical text of this key; the event with that index in that
      state has at most 64 readable calls, of which exactly this one has the journal's call id,
      under the journal's tool name. */
  ghost predicate CalledFrom(s: Snapshot, turn: string, callId: string, tool: string, sizeMax: nat, key: Key, call: nat,
                             state: ObjectState) {
    && turn == Print(key) && InRange(key, sizeMax) && Located(s, key, state)
    && state.events.Present? && key.event < |state.events.value| && state.events.value[key.event].ModelEvent?
    && var calls := state.events.value[key.event].calls;
       && |calls| <= 64 && call < |calls| && calls[call] == Call(callId, tool)
       && forall j :: 0 <= j < |calls| ==> calls[j].Call? && (j != call ==> calls[j].id != callId)
  }

  /** Only an executor's event can name a step, and then a well-formed one of a published plan. */
  ghost predicate StepMeaning(s: Snapshot, key: Key, state: ObjectState, steps: bool, step: StepPart) {
    match step
    case StepsOff => !steps
    case NotApplicable => steps && !key.ExecutorKey?
    case Unrecorded => steps && key.ExecutorKey? && state.origin.Absent?
    case PreparedFor(plan, n) =>
      && steps && key.ExecutorKey? && state.origin == Present(StepOrigin(plan, n))
      && plan < |s.plans| && n < |s.plans[plan]| && s.plans[plan][n]
    case StepError => false
  }

  /** A journal is matched exactly when it was called from that event, with exactly that step. */
  lemma MatchedMeans(s: Snapshot, turn: string, callId: string, tool: string, steps: bool, sizeMax: nat, key: Key,
                     call: nat, step: StepPart)
    requires NulFree(turn)
    ensures Resolve(s, turn, callId, tool, steps, sizeMax) == Matched(key, call, step)
      <==> exists state: ObjectState :: CalledFrom(s, turn, callId, tool, sizeMax, key, call, state)
                                        && StepMeaning(s, key, state, steps, step)
  {
    hide Resolve, CalledFrom, StepMeaning, InRange, Print;
    if Resolve(s, turn, callId, tool, steps, sizeMax) == Matched(key, call, step) {
      var state := CalledWhenMatched(s, turn, callId, tool, steps, sizeMax, key, call, step);
    }
    if state: ObjectState :| CalledFrom(s, turn, callId, tool, sizeMax, key, call, state)
                             && StepMeaning(s, key, state, steps, step) {
      MatchedWhenCalled(s, turn, callId, tool, steps, sizeMax, key, call, step, state);
    }
  }

  lemma CalledWhenMatched(s: Snapshot, turn: string, callId: string, tool: string, steps: bool, sizeMax: nat, key: Key,
                          call: nat, step: StepPart) returns (state: ObjectState)
    requires NulFree(turn) && Resolve(s, turn, callId, tool, steps, sizeMax) == Matched(key, call, step)
    ensures CalledFrom(s, turn, callId, tool, sizeMax, key, call, state) && StepMeaning(s, key, state, steps, step)
  {
    hide Parse, FindFrom, Print;
    PrintParse(turn, sizeMax);
    state := StateOf(s, key).state;
    FindMeans(state.events.value[key.event].calls, callId, tool);
  }

  lemma MatchedWhenCalled(s: Snapshot, turn: string, callId: string, tool: string, steps: bool, sizeMax: nat, key: Key,
                          call: nat, step: StepPart, state: ObjectState)
    requires CalledFrom(s, turn, callId, tool, sizeMax, key, call, state) && StepMeaning(s, key, state, steps, step)
    ensures Resolve(s, turn, callId, tool, steps, sizeMax) == Matched(key, call, step)
  {
    hide Parse, FindFrom, Print;
    ParsePrint(key, sizeMax);
    FindMeans(state.events.value[key.event].calls, callId, tool);
  }

  // ----- What no match means -----

  /** The snapshot lacks the version, the event, or a call with the journal's id in that event. */
  ghost predicate NotCalled(s: Snapshot, key: Key, callId: string) {
    && s.root.AgentState?
    && ((!key.RootKey?
         && var versions := if key.PlannerKey? then s.planners else s.executors;
            versions.Absent? || (versions.Present? && key.version >= |versions.value|))
        || exists state: ObjectState :: Located(s, key, state) && NotIn(state, key.event, callId))
  }

  ghost predicate NotIn(state: ObjectState, index: nat, callId: string) {
    || state.events.Absent?
    || (state.events.Present?
        && (index >= |state.events.value|
            || (state.events.value[index].ModelEvent?
                && var calls := state.events.value[index].calls;
                   && |calls| <= 64
                   && forall j :: 0 <= j < |calls| ==> calls[j].Call? && calls[j].id != callId)))
  }

  lemma EventAbsent(s: Snapshot, key: Key, callId: string, tool: string)
    ensures NotCalled(s, key, callId) <==>
      EventOf(s, key).NotInSnapshot?
      || (EventOf(s, key).Event? && FindFrom(EventOf(s, key).calls, callId, tool, 0, None).Missing?)
  {
    hide FindFrom, NotIn;
    var r := StateOf(s, key);
    if r.State? {
      assert Located(s, key, r.state);
      MissesEvent(r.state, key.event, callId, tool);
    }
  }

  lemma MissesEvent(state: ObjectState, index: nat, callId: string, tool: string)
    ensures NotIn(state, index, callId) <==>
      EventIn(state, index).NotInSnapshot?
      || (EventIn(state, index).Event? && FindFrom(EventIn(state, index).calls, callId, tool, 0, None).Missing?)
  {
    hide FindFrom;
    if state.events.Present? && index < |state.events.value| && state.events.value[index].ModelEvent? {
      MissingMeans(state.events.value[index].calls, callId, tool);
    }
  }

  lemma MissingMeans(calls: seq<Call>, id: string, name: string)
    ensures FindFrom(calls, id, name, 0, None).Missing? <==>
      forall j :: 0 <= j < |calls| ==> calls[j].Call? && calls[j].id != id
  {
    hide FindFrom;
    FindMeans(calls, id, name);
  }

  /** The identity is unresolved exactly for a turn text of neither kind, and the origin is absent
      exactly for a canonical turn text whose event or call the snapshot does not have. */
  lemma UnmatchedMeans(s: Snapshot, turn: string, callId: string, tool: string, steps: bool, sizeMax: nat)
    requires NulFree(turn)
    ensures Resolve(s, turn, callId, tool, steps, sizeMax) == NoOrigin(UnresolvedIdentity)
      <==> !HasPrefix(turn, PLANNER) && !HasPrefix(turn, EXECUTOR)
    ensures Resolve(s, turn, callId, tool, steps, sizeMax) == NoOrigin(AbsentFromSnapshot)
      <==> exists key :: turn == Print(key) && InRange(key, sizeMax) && NotCalled(s, key, callId)
  {
    hide FindFrom, Print, ParseFrom, NotCalled, EventOf, StepOf;
    UnresolvedMeans(turn, sizeMax);
    hide Parse;
    if Parse(turn, sizeMax).Resolved? {
      PrintParse(turn, sizeMax);
      EventAbsent(s, Parse(turn, sizeMax).key, callId, tool);
    }
    if key :| turn == Print(key) && InRange(key, sizeMax) && NotCalled(s, key, callId) {
      ParsePrint(key, sizeMax);
    }
  }

  lemma UnresolvedMeans(turn: string, sizeMax: nat)
    ensures Parse(turn, sizeMax).Unresolved? <==> !HasPrefix(turn, PLANNER) && !HasPrefix(turn, EXECUTOR)
  {
    assert HasPrefix(turn, ROOT) ==> turn[..|PLANNER|] == ROOT[..|PLANNER|] == PLANNER;
  }

  // ----- What an error means -----

  ghost predicate CorruptAt(s: Snapshot, key: Key) {
    || s.root.NotAnObject?
    || (!key.RootKey?
        && var versions := if key.PlannerKey? then s.planners else s.executors;
           versions.Malformed?
           || (versions.Present? && key.version < |versions.value| && versions.value[key.version].NotAnObject?))
  }

  /** Errors for the canonical text of a key: a snapshot that is not of the expected shape on the way to the
      event is corrupt, an unreadable event or call keeps its own error, and an event with more calls
      than can be searched has no room. */
  lemma ErrorsMean(s: Snapshot, key: Key, callId: string, tool: string, steps: bool, sizeMax: nat)
    requires InRange(key, sizeMax)
    ensures var r := Resolve(s, Print(key), callId, tool, steps, sizeMax);
      && (CorruptAt(s, key) ==> r == ResolutionError(EPROTO))
      && forall state: ObjectState :: Located(s, key, state) ==>
           && (state.events.Malformed? ==> r == ResolutionError(EPROTO))
           && (state.events.Present? && key.event < |state.events.value| ==>
                 var event := state.events.value[key.event];
                 && (event.BadEvent? ==> r == ResolutionError(event.rc))
                 && (event.ModelEvent? && |event.calls| > 64 ==> r == ResolutionError(ENOSPC)))
  {
    hide Print, Parse, FindFrom;
    ParsePrint(key, sizeMax);
  }
}
