/** The typed loaders of the Router's own records, check by check. */
module RouterLoaders {
  import opened Collections
  import opened ReportKeys
  import opened ReportRecords

  method CheckText(s: string, max: nat) returns (ok: bool)
    ensures ok <==> Text(s, max)
  {
    return s != "" && |s| <= max;
  }

  method CheckNullable(s: Option<string>) returns (ok: bool)
    ensures ok <==> NullableText(s, 128)
  {
    if s.None? { return true; }
    ok := CheckText(s.value, 128);
  }

  /** At most 64 letters, digits, underscores and dashes. */
  method CheckRouterId(s: string) returns (ok: bool)
    ensures ok <==> RouterId(s)
  {
    if |s| == 0 || |s| > 64 { return false; }
    for i := 0 to |s|
      invariant forall k :: 0 <= k < i ==> IdChar(s[k])
    {
      var c := s[i];
      if !(('a' <= c && c <= 'z') || ('A' <= c && c <= 'Z') || ('0' <= c && c <= '9') || c == '_' || c == '-') {
        return false;
      }
    }
    return true;
  }

  /** The identifiers of a record, one after the other. */
  method CheckIds(ids: seq<string>) returns (ok: bool)
    ensures ok <==> forall i :: 0 <= i < |ids| ==> RouterId(ids[i])
  {
    for i := 0 to |ids|
      invariant forall k :: 0 <= k < i ==> RouterId(ids[k])
    {
      ok := CheckRouterId(ids[i]);
      if !ok { return; }
    }
    return true;
  }

  method CheckTexts(texts: seq<(string, nat)>) returns (ok: bool)
    ensures ok <==> forall i :: 0 <= i < |texts| ==> Text(texts[i].0, texts[i].1)
  {
    for i := 0 to |texts|
      invariant forall k :: 0 <= k < i ==> Text(texts[k].0, texts[k].1)
    {
      ok := CheckText(texts[i].0, texts[i].1);
      if !ok { return; }
    }
    return true;
  }

  method CheckRouteRecord(r: Route) returns (ok: bool)
    ensures ok <==> RouteValid(r)
  {
    hide RouterId, Text;
    var ids, texts := [r.endpoint, r.threadId], [(r.parentRunId, 128), (r.model, 1024), (r.provider, 1024)];
    assert ids[0] == r.endpoint && ids[1] == r.threadId;
    assert texts[0] == (r.parentRunId, 128) && texts[1] == (r.model, 1024) && texts[2] == (r.provider, 1024);
    ok := CheckIds(ids);
    if !ok { return; }
    ok := CheckTexts(texts);
    if !ok || (r.role != Plan && r.role != Run) { return false; }
    return r.maxTurns == 0 || (r.maxTurns >= 2 && r.maxTurns <= 16);
  }

  method CheckIntentRecord(i: Intent, id: string) returns (ok: bool)
    ensures ok <==> IntentValid(i, id)
  {
    hide RouterId, RouteValid;
    if i.admissionId != id { return false; }
    var ids := [i.admissionId, i.taskId];
    assert ids[0] == i.admissionId && ids[1] == i.taskId;
    ok := CheckIds(ids);
    if !ok { return; }
    ok := CheckRouteRecord(i.route);
    if !ok { return; }
    return i.route.maxTurns == 0 || i.route.role == Run;
  }

  /** A segment that has not ended tells nothing about a result. */
  method CheckOpen(o: Observation) returns (ok: bool)
    ensures ok <==> OpenShape(o)
  {
    if o.approvalPending { return false; }
    return o.runId.None? && o.checkpointId.None? && o.runtimeStatus.None? && o.failureKind.None?;
  }

  const TERMINAL_STATUS: seq<RuntimeStatus> := [RunCompleted, RunInterrupted, RunCancelled, RunTimedOut]

  /** One that has ended tells of a run exactly with the run's status, which is the segment's own. */
  method CheckEnded(o: Observation) returns (ok: bool)
    requires COMPLETED <= o.status <= FAILED
    ensures ok <==> EndedShape(o)
  {
    if o.code < -2147483648 || o.code > 2147483647 || (o.code != 0 && o.status != 6) { return false; }
    if o.runId.Some? != o.runtimeStatus.Some? || (o.runtimeStatus.None? && o.checkpointId.Some?) { return false; }
    if o.code == 0 {
      if o.status < 6 && o.runtimeStatus != Some(TERMINAL_STATUS[o.status - 2]) { return false; }
      if o.status == 6 && o.runtimeStatus.Some? {
        for i := 0 to 4
          invariant forall k :: 0 <= k < i ==> o.runtimeStatus.value != TERMINAL_STATUS[k]
        {
          if o.runtimeStatus.value == TERMINAL_STATUS[i] { return false; }
        }
        assert o.runtimeStatus.value != TERMINAL_STATUS[0] && o.runtimeStatus.value != TERMINAL_STATUS[1];
        assert o.runtimeStatus.value != TERMINAL_STATUS[2] && o.runtimeStatus.value != TERMINAL_STATUS[3];
      }
    }
    if o.approvalPending && (o.status != 3 || o.route.maxTurns == 0 || o.checkpointId.None?) { return false; }
    return true;
  }

  method CheckObservationRecord(o: Observation, id: string) returns (ok: bool)
    ensures ok <==> ObservationValid(o, id)
  {
    hide RouterId, RouteValid, NullableText, OpenShape, EndedShape;
    var ids := [o.observationId, o.taskId, o.executionId];
    assert ids[0] == o.observationId && ids[1] == o.taskId && ids[2] == o.executionId;
    ok := CheckIds(ids);
    if !ok { return; }
    ok := CheckRouteRecord(o.route);
    if !ok { return; }
    ok := CheckNullable(o.runId);
    if !ok { return; }
    ok := CheckNullable(o.checkpointId);
    if !ok { return; }
    ok := CheckNullable(o.failureKind);
    if !ok || o.observationId != id { return false; }
    if o.status < 0 || o.status > 6 || o.resumes < 0 || o.resumes > 32 { return false; }
    if o.route.maxTurns == 0 && o.resumes != 0 { return false; }
    if o.resumes == 0 && o.taskId != o.executionId { return false; }
    if o.status < 2 { ok := CheckOpen(o); } else { ok := CheckEnded(o); }
  }

  /** A member of a group: ended, not a tool loop, with current authority; for an aggregation, completed. */
  method CheckMember(g: Group, o: Observation, id: string) returns (ok: bool)
    ensures ok <==> MemberValid(g, o, id)
  {
    hide ObservationValid;
    ok := CheckObservationRecord(o, id);
    if !ok || o.status < 2 || o.route.maxTurns != 0 || o.resumes != 0 { return false; }
    if o.route.parentRunId != g.parentRunId || !o.authorityCurrent || o.unresponsive { return false; }
    if o.approvalPending { return false; }
    return !g.aggregation || (o.status == 2 && o.code == 0 && o.failureKind.None?);
  }

  method CheckGroupRecord(g: Group, id: string) returns (ok: bool)
    ensures ok <==> GroupValid(g, id)
  {
    hide RouterId, Text, MemberValid;
    ok := CheckRouterId(g.observationId);
    if !ok { return; }
    ok := CheckRouterId(g.groupId);
    if !ok { return; }
    ok := CheckText(g.parentRunId, 128);
    if !ok || g.observationId != id || |g.members| < 2 || |g.members| > 16 { return false; }
    for i := 0 to |g.members|
      invariant forall k :: 0 <= k < i ==> MemberValid(g, g.members[k], id)
      invariant forall k, l :: 0 <= k < l < i ==> Apart(g.members[k], g.members[l])
    {
      var o := g.members[i];
      ok := CheckMember(g, o, id);
      if !ok { return; }
      for j := 0 to i
        invariant forall k :: 0 <= k < j ==> Apart(g.members[k], o)
      {
        var p := g.members[j];
        if p.taskId == o.taskId || p.executionId == o.executionId || p.route.threadId == o.route.threadId
           || p.route.endpoint == o.route.endpoint {
          assert !Apart(g.members[j], g.members[i]);
          return false;
        }
      }
    }
    return true;
  }

  method CheckReviewRecord(r: Review, id: string) returns (ok: bool)
    ensures ok <==> ReviewValid(r, id)
  {
    hide RouterId, Text;
    var ids := [r.reviewId, r.taskId, r.executionId, r.previousExecutionId, r.endpoint, r.threadId];
    assert ids[0] == r.reviewId && ids[1] == r.taskId && ids[2] == r.executionId && ids[3] == r.previousExecutionId
        && ids[4] == r.endpoint && ids[5] == r.threadId;
    ok := CheckIds(ids);
    if !ok { return; }
    if r.admissionId.Some? {
      ok := CheckRouterId(r.admissionId.value);
      if !ok { return; }
    }
    var texts := [(r.parentRunId, 128), (r.model, 1024), (r.provider, 1024), (r.sourceRunId, 128),
                  (r.sourceCheckpointId, 128)];
    assert texts[0] == (r.parentRunId, 128) && texts[1] == (r.model, 1024) && texts[2] == (r.provider, 1024)
        && texts[3] == (r.sourceRunId, 128) && texts[4] == (r.sourceCheckpointId, 128);
    ok := CheckTexts(texts);
    if !ok || r.reviewId != id || (r.decision != Approve && r.decision != Reject) { return false; }
    if r.executionId == r.previousExecutionId || r.executionId == r.taskId { return false; }
    if r.segment < 1 || r.segment > 32 || r.maxTurns < 2 || r.maxTurns > 16 { return false; }
    return (r.segment == 1) == (r.previousExecutionId == r.taskId);
  }
}
