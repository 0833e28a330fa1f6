/** The bounded walk over a raw Provider response that runs before any of it is accepted. */
module ResponseWalker {
  import opened Collections

  datatype Json =
    | Scalar
    | Text(text: string)
    | Array(items: seq<Json>)
    | Object(members: seq<Member>)
  datatype Member = Member(key: string, value: Json)

  const MAX_DEPTH := 64
  const MAX_NODES := 65536

  // ----- What the guard is meant to bound -----

  /** No string and no key holds an embedded NUL, which a C string would cut short. */
  predicate Clean(v: Json) {
    match v
    case Scalar => true
    case Text(text) => NulFree(text)
    case Array(items) => forall i :: 0 <= i < |items| ==> Clean(items[i])
    case Object(members) => forall i :: 0 <= i < |members| ==> NulFree(members[i].key) && Clean(members[i].value)
  }

  /** Every node at or below this one, itself at depth d, is at most 64 deep. */
  predicate Shallow(v: Json, d: nat) {
    && d <= 64
    && match v
       case Array(items) => forall i :: 0 <= i < |items| ==> Shallow(items[i], d + 1)
       case Object(members) => forall i :: 0 <= i < |members| ==> Shallow(members[i].value, d + 1)
       case _ => true
  }

  function Nodes(v: Json): (n: nat)
    ensures n >= 1
    decreases v
  {
    match v
    case Array(items) => 1 + ItemNodes(v, items, |items|)
    case Object(members) => 1 + MemberNodes(v, members, |members|)
    case _ => 1
  }

  /** Nodes below the first k items. */
  function ItemNodes(parent: Json, items: seq<Json>, k: nat): nat
    requires parent == Array(items) && k <= |items|
    decreases parent, 0, k
  {
    if k == 0 then 0 else ItemNodes(parent, items, k - 1) + Nodes(items[k - 1])
  }

  function MemberNodes(parent: Json, members: seq<Member>, k: nat): nat
    requires parent == Object(members) && k <= |members|
    decreases parent, 0, k
  {
    if k == 0 then 0 else MemberNodes(parent, members, k - 1) + Nodes(members[k - 1].value)
  }

  lemma {:induction false} ItemNodesGrow(v: Json, j: nat, k: nat)
    requires v.Array? && j <= k <= |v.items|
    ensures ItemNodes(v, v.items, j) <= ItemNodes(v, v.items, k)
    decreases k
  {
    if j < k { ItemNodesGrow(v, j, k - 1); }
  }

  lemma {:induction false} MemberNodesGrow(v: Json, j: nat, k: nat)
    requires v.Object? && j <= k <= |v.members|
    ensures MemberNodes(v, v.members, j) <= MemberNodes(v, v.members, k)
    decreases k
  {
    if j < k { MemberNodesGrow(v, j, k - 1); }
  }

  ghost predicate Acceptable(v: Json, depth: nat, budget: nat) {
    Clean(v) && Shallow(v, depth) && Nodes(v) <= budget
  }

  // ----- The walk -----

  /** `strlen` against the stored length. */
  method CheckNulFree(s: string) returns (ok: bool)
    ensures ok <==> NulFree(s)
  {
    var i := 0;
    while i < |s| && s[i] != '\0'
      invariant i <= |s| && forall k :: 0 <= k < i ==> s[k] != '\0'
    {
      i := i + 1;
    }
    return i == |s|;
  }

  /** The recursive guard with its shared counter: exact, and on acceptance the counter has
      dropped by the number of nodes. */
  method Walk(v: Json, depth: nat, budget: nat) returns (ok: bool, remaining: nat)
    ensures ok <==> Acceptable(v, depth, budget)
    ensures ok ==> remaining == budget - Nodes(v)
    decreases v, 1
  {
    if depth > MAX_DEPTH || budget == 0 { return false, budget; }
    remaining := budget - 1;
    match v
    case Scalar => return true, remaining;
    case Text(text) => ok := CheckNulFree(text);
    case Array(items) => ok, remaining := WalkItems(v, depth, remaining);
    case Object(members) => ok, remaining := WalkMembers(v, depth, remaining);
  }

  method WalkItems(v: Json, depth: nat, budget: nat) returns (ok: bool, remaining: nat)
    requires v.Array? && depth <= 64
    ensures ok <==> Acceptable(v, depth, budget + 1)
    ensures ok ==> remaining == budget + 1 - Nodes(v)
    decreases v, 0
  {
    remaining := budget;
    for i := 0 to |v.items|
      invariant forall k :: 0 <= k < i ==> Clean(v.items[k]) && Shallow(v.items[k], depth + 1)
      invariant remaining == budget - ItemNodes(v, v.items, i)
    {
      ItemNodesGrow(v, i + 1, |v.items|);
      ok, remaining := Walk(v.items[i], depth + 1, remaining);
      if !ok { return; }
    }
    return true, remaining;
  }

  method WalkMembers(v: Json, depth: nat, budget: nat) returns (ok: bool, remaining: nat)
    requires v.Object? && depth <= 64
    ensures ok <==> Acceptable(v, depth, budget + 1)
    ensures ok ==> remaining == budget + 1 - Nodes(v)
    decreases v, 0
  {
    remaining := budget;
    for i := 0 to |v.members|
      invariant forall k :: 0 <= k < i ==>
        NulFree(v.members[k].key) && Clean(v.members[k].value) && Shallow(v.members[k].value, depth + 1)
      invariant remaining == budget - MemberNodes(v, v.members, i)
    {
      MemberNodesGrow(v, i + 1, |v.members|);
      ok := CheckNulFree(v.members[i].key);
      if !ok { return; }
      ok, remaining := Walk(v.members[i].value, depth + 1, remaining);
      if !ok { return; }
    }
    return true, remaining;
  }

  method ResponseGuard(response: Json) returns (ok: bool)
    ensures ok <==> Clean(response) && Shallow(response, 0) && Nodes(response) <= 65536
  {
    var remaining;
    ok, remaining := Walk(response, 0, MAX_NODES);
  }
}
