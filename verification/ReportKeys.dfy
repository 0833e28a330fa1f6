/** Identifiers of an audited report: the report id, the eleven write-ahead gates,
    the sixteen phase suffixes and the store key built from an id and a suffix. */
module ReportKeys {
  import opened Collections

  const GATES: seq<string> := [
    "manifest", "worker-a", "worker-b", "fan-in", "aggregate", "aggregate-final",
    "execute", "pending", "review", "execute-final", "ready"]

  const SUFFIXES: seq<string> := [
    "worker-a", "worker-b", "fan-in", "aggregate", "aggregate-final", "execute",
    "pending", "review", "execute-final", "ready",
    "stop", "stop-worker-a", "stop-worker-b", "stop-aggregate", "stop-execute", "gate-failure"]

  const MAX_KEY_BYTES := 64
  const ANALYSIS := "analysis"

  predicate IdChar(c: char) {
    'a' <= c <= 'z' || 'A' <= c <= 'Z' || '0' <= c <= '9' || c == '_' || c == '-'
  }

  predicate ValidId(id: string) {
    1 <= |id| <= 32 && forall i :: 0 <= i < |id| ==> IdChar(id[i])
  }

  /** The validator loop accepts exactly the 1..32 byte ASCII identifiers. */
  method CheckId(id: string) returns (ok: bool)
    ensures ok <==> ValidId(id)
  {
    if |id| == 0 || |id| > 32 { return false; }
    for i := 0 to |id|
      invariant forall k :: 0 <= k < i ==> IdChar(id[k])
    {
      var c := id[i];
      if !(('a' <= c && c <= 'z') || ('A' <= c && c <= 'Z') || ('0' <= c && c <= '9') || c == '_' || c == '-') {
        return false;
      }
    }
    return true;
  }

  function Key(id: string, suffix: string): string {
    id + "-" + suffix
  }

  /** `snprintf` into a 64-byte buffer: a longer key is refused, never truncated. */
  function MakeKey(id: string, suffix: string): Option<string> {
    var key := Key(id, suffix);
    if |key| < MAX_KEY_BYTES then Some(key) else None
  }

  lemma KeysFit(id: string, i: nat)
    requires ValidId(id) && i < |SUFFIXES|
    ensures MakeKey(id, SUFFIXES[i]) == Some(Key(id, SUFFIXES[i])) && |Key(id, SUFFIXES[i])| <= 48
  {
  }

  lemma SuffixLengths()
    ensures forall i :: 0 <= i < |SUFFIXES| ==> |SUFFIXES[i]| <= 15
  {
  }

  predicate IdText(s: string) { forall i :: 0 <= i < |s| ==> IdChar(s[i]) }

  lemma SuffixesAreIds(i: nat)
    requires i < 16
    ensures IdText(SUFFIXES[i]) && IdText(ANALYSIS) && |ANALYSIS| == 8
  {
  }

  // ----- Collections -----

  datatype Collection = Manifests | Intents | Observations | Groups | Reviews | Deliveries | Stops | Failures

  function CollectionOf(i: nat): Collection
    requires i < 16
  {
    if i in {0, 1, 3, 5} then Intents
    else if i in {4, 6, 8, 11, 12, 13, 14} then Observations
    else if i == 2 then Groups
    else if i == 7 then Reviews
    else if i == 9 then Deliveries
    else if i == 10 then Stops
    else Failures
  }

  /** `shorter` occurs at the end of `longer`, right after a dash: the only way in
      which two different report ids could be given one key. */
  predicate DashSuffix(shorter: string, longer: string) {
    && |shorter| < |longer|
    && longer[|longer| - |shorter| - 1] == '-'
    && longer[|longer| - |shorter|..] == shorter
  }

  lemma EqualKeys(id: string, s: string, id': string, s': string)
    requires Key(id, s) == Key(id', s')
    ensures (id == id' && s == s') || DashSuffix(s, s') || DashSuffix(s', s)
  {
    var k := Key(id, s);
    assert k[|k| - |s|..] == s && k[|k| - |s'|..] == s';
    assert k[|id|] == '-' && k[|id'|] == '-';
    if |s| == |s'| {
      assert k[..|id|] == id && k[..|id'|] == id';
    } else if |s| < |s'| {
      assert s'[|s'| - |s| - 1] == k[|id'| + 1 + (|s'| - |s| - 1)];
      assert s'[|s'| - |s|..] == k[|k| - |s|..];
    } else {
      assert s[|s| - |s'| - 1] == k[|id| + 1 + (|s| - |s'| - 1)];
      assert s[|s| - |s'|..] == k[|k| - |s'|..];
    }
  }

  function Last(s: string): char
    requires s != ""
  {
    s[|s| - 1]
  }

  lemma Separate(s: string, s': string)
    requires s != "" && s' != "" && Last(s) != Last(s')
    ensures s != s' && !DashSuffix(s, s') && !DashSuffix(s', s)
  {
  }

  lemma LastDiffer(i: nat, j: nat)
    requires i < j < 16 && CollectionOf(i) == CollectionOf(j) && (i, j) !in {(3, 5), (4, 8), (13, 14)}
    ensures SUFFIXES[i] != "" && SUFFIXES[j] != "" && Last(SUFFIXES[i]) != Last(SUFFIXES[j])
  {
    assert Last("worker-a") == 'a' && Last("worker-b") == 'b';
    assert Last("aggregate") == 'e' && Last("execute") == 'e';
    assert Last("aggregate-final") == 'l' && Last("pending") == 'g' && Last("execute-final") == 'l';
    assert Last("stop-worker-a") == 'a' && Last("stop-worker-b") == 'b';
    assert Last("stop-aggregate") == 'e' && Last("stop-execute") == 'e';
  }

  /** No suffix of a collection is a dash-suffix of another suffix of that collection. */
  lemma SuffixesSeparate(i: nat, j: nat)
    requires i < j < 16 && CollectionOf(i) == CollectionOf(j)
    ensures SUFFIXES[i] != SUFFIXES[j]
    ensures !DashSuffix(SUFFIXES[i], SUFFIXES[j]) && !DashSuffix(SUFFIXES[j], SUFFIXES[i])
  {
    SuffixLengths();
    if (i, j) == (3, 5) {
      assert SUFFIXES[3][1] == 'g';
    } else if (i, j) == (4, 8) {
      assert SUFFIXES[4][1] == 'g';
    } else if (i, j) == (13, 14) {
      assert SUFFIXES[13][1] == 't';
    } else {
      LastDiffer(i, j);
      Separate(SUFFIXES[i], SUFFIXES[j]);
    }
  }

  /** Within a collection a key determines both the report and its phase, although
      report ids may themselves contain dashes. */
  lemma KeyInjective(id: string, i: nat, id': string, j: nat)
    requires i < 16 && j < 16 && CollectionOf(i) == CollectionOf(j)
    requires Key(id, SUFFIXES[i]) == Key(id', SUFFIXES[j])
    ensures id == id' && i == j
  {
    EqualKeys(id, SUFFIXES[i], id', SUFFIXES[j]);
    if i < j {
      SuffixesSeparate(i, j);
    } else if j < i {
      SuffixesSeparate(j, i);
    }
  }

  /** Remark on KeyInjective: without the common collection it fails. */
  lemma KeyInjectiveNeedsCollection()
    ensures ValidId("demo") && ValidId("demo-stop")
    ensures Key("demo", SUFFIXES[11]) == Key("demo-stop", SUFFIXES[0])
    ensures CollectionOf(11) != CollectionOf(0)
  {
  }

  /** The sixteen suffixes are pairwise different, so one report never reuses a key. */
  lemma SuffixesDistinct(i: nat, j: nat)
    requires i < j < 16
    ensures SUFFIXES[i] != SUFFIXES[j]
  {
  }

  /** Gate g > 0 writes the record of suffix g - 1. */
  lemma GateSuffix(g: nat)
    requires 1 <= g < 11
    ensures GATES[g] == SUFFIXES[g - 1]
  {
  }

  lemma GatesDistinct(g: nat, h: nat)
    requires g < h < 11
    ensures GATES[g] != GATES[h]
  {
  }

  // ----- The names of one report -----

  /** All names that a report uses: its gates with the names under which the writer lists them,
      its suffixes, and the sixteen phase keys followed by the key of the worker group. */
  datatype NameTable = NameTable(id: string, gates: seq<string>, gateKeys: seq<string>, suffixes: seq<string>,
                                 keys: seq<string>)

  type Names = n: NameTable | |n.gates| == |n.gateKeys| == 11 && |n.suffixes| == 16 && |n.keys| == 17
    witness NameTable("", seq(11, _ => ""), seq(11, _ => ""), seq(16, _ => ""), seq(17, _ => ""))

  ghost predicate KeysApart(n: Names) {
    forall i, j :: 0 <= i < j < 16 ==> n.keys[i] != n.keys[j]
  }

  /** The writer's gate table and the inspection's suffix table give the same keys. */
  ghost predicate TablesAgree(n: Names) {
    n.gateKeys[0] == n.id && forall g :: 1 <= g < 11 ==> n.gateKeys[g] == n.keys[g - 1]
  }

  /** Building the key of a suffix in the bounded buffer succeeds. */
  ghost predicate KeysMade(n: Names) {
    ValidId(n.id) ==> forall i :: 0 <= i < 16 ==> MakeKey(n.id, n.suffixes[i]) == Some(n.keys[i])
  }

  /** What the protocol needs to know about names; the texts themselves do not matter. */
  ghost predicate NamesOk(n: Names) {
    NoneTwice(n.gates) && NoneTwice(n.suffixes) && KeysApart(n) && TablesAgree(n) && KeysMade(n)
  }

  function NamesOf(id: string): Names {
    NameTable(id, GATES, seq(11, g requires 0 <= g < 11 => if g == 0 then id else Key(id, GATES[g])), SUFFIXES,
              seq(17, i requires 0 <= i < 17 => if i < 16 then Key(id, SUFFIXES[i]) else Key(id, ANALYSIS)))
  }

  lemma NamesOfAreOk(id: string)
    ensures NamesOk(NamesOf(id))
  {
    forall i, j | 0 <= i < j < 16
      ensures SUFFIXES[i] != SUFFIXES[j] && Key(id, SUFFIXES[i]) != Key(id, SUFFIXES[j])
    {
      SuffixesDistinct(i, j);
      assert Key(id, SUFFIXES[i])[|id| + 1..] == SUFFIXES[i];
      assert Key(id, SUFFIXES[j])[|id| + 1..] == SUFFIXES[j];
    }
    forall g, h | 0 <= g < h < 11
      ensures GATES[g] != GATES[h]
    {
      GatesDistinct(g, h);
    }
    forall g | 1 <= g < 11
      ensures Key(id, GATES[g]) == Key(id, SUFFIXES[g - 1])
    {
      GateSuffix(g);
    }
    if ValidId(id) {
      forall i | 0 <= i < 16
        ensures MakeKey(id, SUFFIXES[i]) == Some(Key(id, SUFFIXES[i]))
      {
        KeysFit(id, i);
      }
    }
  }
}
