/** Turn keys: canonical decimal offsets and the three key forms that name a snapshot event. */
module TurnKey {
  import opened Collections

  const INT64_MAX: nat := 0x7fff_ffff_ffff_ffff

  // ----- Canonical decimals -----

  const DIGITS := "0123456789"

  predicate Digit(c: char) { c in {'0', '1', '2', '3', '4', '5', '6', '7', '8', '9'} }

  function DigitValue(c: char): (d: nat)
    requires Digit(c)
    ensures d <= 9
  {
    match c
    case '0' => 0 case '1' => 1 case '2' => 2 case '3' => 3 case '4' => 4
    case '5' => 5 case '6' => 6 case '7' => 7 case '8' => 8 case _ => 9
  }

  function DigitChar(d: nat): (c: char)
    requires d <= 9
    ensures Digit(c) && DigitValue(c) == d
  {
    DIGITS[d]
  }

  /** The parser's own test and value of a digit. */
  predicate InDigitRange(c: char) { '0' <= c <= '9' }

  lemma DigitRange(c: char)
    ensures InDigitRange(c) <==> Digit(c)
    ensures Digit(c) ==> DigitValue(c) == c as int - '0' as int
  {
  }

  predicate Digits(s: string) { forall i :: 0 <= i < |s| ==> Digit(s[i]) }

  function Value(s: string): nat
    requires Digits(s)
  {
    if s == "" then 0 else Value(s[..|s| - 1]) * 10 + DigitValue(s[|s| - 1])
  }

  /** No sign, no leading zero, at least one digit. */
  predicate Canonical(s: string) {
    s != "" && Digits(s) && (s[0] == '0' ==> |s| == 1)
  }

  function Decimal(n: nat): (s: string)
    ensures Canonical(s)
    decreases n
  {
    if n < 10 then [DigitChar(n)] else Decimal(n / 10) + [DigitChar(n % 10)]
  }

  lemma {:induction false} ValueOfDecimal(n: nat)
    ensures Value(Decimal(n)) == n
    decreases n
  {
    if n < 10 {
      assert Decimal(n)[..0] == "";
    } else {
      ValueOfDecimal(n / 10);
      assert Decimal(n)[..|Decimal(n)| - 1] == Decimal(n / 10);
    }
  }

  lemma {:induction false} ValuePositive(s: string)
    requires Canonical(s) && s[0] != '0'
    ensures Value(s) > 0
  {
    if |s| == 1 {
      assert s[..0] == "";
    } else {
      ValuePositive(s[..|s| - 1]);
    }
  }

  lemma DecimalStep(v: nat, d: nat)
    requires d <= 9 && v > 0
    ensures Decimal(v * 10 + d) == Decimal(v) + [DigitChar(d)]
  {
    assert (v * 10 + d) / 10 == v && (v * 10 + d) % 10 == d;
  }

  lemma {:induction false} DecimalOfValue(s: string)
    requires Canonical(s)
    ensures Decimal(Value(s)) == s
  {
    var init, last := s[..|s| - 1], s[|s| - 1];
    assert s == init + [last];
    if init != "" {
      DecimalOfValue(init);
      ValuePositive(init);
      DecimalStep(Value(init), DigitValue(last));
    }
  }

  lemma {:induction false} PrefixValueSmaller(s: string, i: nat)
    requires Digits(s) && i <= |s|
    ensures Value(s[..i]) <= Value(s)
    decreases |s|
  {
    if i == |s| {
      assert s[..i] == s;
    } else {
      PrefixValueSmaller(s[..|s| - 1], i);
      assert s[..|s| - 1][..i] == s[..i];
    }
  }

  // ----- The offset parser -----

  /** A C string: reading at the end gives NUL. */
  function At(s: string, i: nat): char {
    if i < |s| then s[i] else '\0'
  }

  /** The end of the digits that start here. */
  function DigitsEnd(s: string, i: nat): (e: nat)
    requires i <= |s|
    ensures i <= e <= |s| && Digits(s[i..e]) && !Digit(At(s, e))
    decreases |s| - i
  {
    if Digit(At(s, i)) then DigitsEnd(s, i + 1) else i
  }

  /** A canonical decimal within both integer ranges, followed by the terminator. */
  predicate OffsetAt(s: string, i: nat, terminator: char, sizeMax: nat)
    requires i <= |s|
  {
    var e := DigitsEnd(s, i);
    && Canonical(s[i..e]) && Value(s[i..e]) <= sizeMax && Value(s[i..e]) <= 0x7fff_ffff_ffff_ffff
    && At(s, e) == terminator
  }

  lemma Extend(s: string, i: nat, p: nat)
    requires i <= p < |s| && Digits(s[i..p]) && Digit(s[p])
    ensures Digits(s[i..p + 1]) && Value(s[i..p + 1]) == Value(s[i..p]) * 10 + DigitValue(s[p])
  {
    assert s[i..p + 1] == s[i..p] + [s[p]];
    assert s[i..p + 1][..p - i] == s[i..p];
  }

  lemma {:induction false} SameDigitsEnd(s: string, i: nat, p: nat)
    requires i <= p <= |s| && Digits(s[i..p])
    ensures DigitsEnd(s, i) == DigitsEnd(s, p)
    decreases p - i
  {
    if i < p {
      assert s[i..p][0] == s[i] && s[i..p][1..] == s[i + 1..p];
      SameDigitsEnd(s, i + 1, p);
    }
  }

  /** The check before the multiplication is exactly the overflow that it prevents. */
  lemma OverflowCheck(value: nat, digit: nat, max: nat)
    requires digit <= 9 <= max
    ensures value > (max - digit) / 10 <==> value * 10 + digit > max
  {
  }

  lemma StartsBadly(s: string, i: nat)
    requires i <= |s| && (!Digit(At(s, i)) || (At(s, i) == '0' && Digit(At(s, i + 1))))
    ensures !Canonical(s[i..DigitsEnd(s, i)])
  {
  }

  lemma TooLarge(s: string, i: nat, p: nat, max: nat)
    requires i <= |s| && i <= p <= DigitsEnd(s, i) && Digits(s[i..p]) && Value(s[i..p]) > max
    ensures Value(s[i..DigitsEnd(s, i)]) > max
  {
    var e := DigitsEnd(s, i);
    PrefixValueSmaller(s[i..e], p - i);
    assert s[i..e][..p - i] == s[i..p];
  }

  lemma StartsWell(s: string, i: nat)
    requires i < |s| && Digit(s[i]) && (s[i] == '0' ==> !Digit(At(s, i + 1)))
    ensures Canonical(s[i..DigitsEnd(s, i)])
  {
  }

  /** Reads one offset; accepts exactly the canonical decimals within range. */
  method OriginOffset(s: string, cursor: nat, terminator: char, sizeMax: nat)
    returns (ok: bool, value: nat, next: nat)
    requires cursor <= |s| && !Digit(terminator) && sizeMax >= 9
    ensures ok <==> OffsetAt(s, cursor, terminator, sizeMax)
    ensures ok ==> value == Value(s[cursor..DigitsEnd(s, cursor)])
    ensures ok ==> next == DigitsEnd(s, cursor) + (if terminator == '\0' then 0 else 1) && next <= |s|
  {
    hide Value, Canonical;
    var p := cursor;
    value, next := 0, cursor;
    DigitRange(At(s, p));
    DigitRange(At(s, p + 1));
    if !InDigitRange(At(s, p)) || (At(s, p) == '0' && InDigitRange(At(s, p + 1))) {
      StartsBadly(s, cursor);
      return false, 0, cursor;
    }
    StartsWell(s, cursor);
    EmptyValue(s, cursor);
    while InDigitRange(At(s, p))
      invariant cursor <= p <= |s| && Digits(s[cursor..p]) && value == Value(s[cursor..p])
      invariant DigitsEnd(s, p) == DigitsEnd(s, cursor)
      invariant value <= sizeMax && value <= INT64_MAX && (InDigitRange(At(s, p)) <==> Digit(At(s, p)))
      decreases |s| - p
    {
      DigitRange(At(s, p));
      DigitRange(At(s, p + 1));
      var digit := At(s, p) as int - '0' as int;
      Extend(s, cursor, p);
      OverflowCheck(value, digit, sizeMax);
      OverflowCheck(value, digit, INT64_MAX);
      if value > (sizeMax - digit) / 10 || value > (INT64_MAX - digit) / 10 {
        TooLarge(s, cursor, p + 1, if value * 10 + digit > sizeMax then sizeMax else INT64_MAX);
        return false, 0, cursor;
      }
      value, p := value * 10 + digit, p + 1;
    }
    if At(s, p) != terminator { return false, 0, cursor; }
    ok, next := true, if terminator == '\0' then p else p + 1;
  }

  lemma EmptyValue(s: string, i: nat)
    requires i <= |s|
    ensures Value(s[i..i]) == 0
  {
  }

  // ----- Keys -----

  datatype Key = RootKey(event: nat) | PlannerKey(version: nat, event: nat) | ExecutorKey(version: nat, event: nat)

  datatype Parsed = Resolved(key: Key) | Unresolved | Malformed

  const ROOT := "planner:root:"
  const PLANNER := "planner:"
  const EXECUTOR := "executor:"

  function Versioned(prefix: string, version: nat, event: nat): string {
    prefix + Decimal(version) + ":" + Decimal(event)
  }

  function Print(k: Key): string {
    match k
    case RootKey(event) => "planner:root:" + Decimal(event)
    case PlannerKey(version, event) => Versioned("planner:", version, event)
    case ExecutorKey(version, event) => Versioned("executor:", version, event)
  }

  predicate Fits(n: nat, sizeMax: nat) { n <= sizeMax && n <= 0x7fff_ffff_ffff_ffff }

  predicate InRange(k: Key, sizeMax: nat) {
    Fits(k.event, sizeMax) && (!k.RootKey? ==> Fits(k.version, sizeMax))
  }

  predicate HasPrefix(s: string, prefix: string) {
    |prefix| <= |s| && s[..|prefix|] == prefix
  }

  /** What one read gives: the value and where the next one starts. */
  function Offset(s: string, i: nat, terminator: char, sizeMax: nat): (r: (bool, nat, nat))
    requires i <= |s|
    ensures r.0 && !Digit(terminator) && terminator != '\0' ==> r.2 <= |s|
  {
    var e := DigitsEnd(s, i);
    if OffsetAt(s, i, terminator, sizeMax) then (true, Value(s[i..e]), e + (if terminator == '\0' then 0 else 1))
    else (false, 0, i)
  }

  function ParseFrom(s: string, i: nat, versioned: bool, planner: bool, sizeMax: nat): Parsed
    requires i <= |s|
  {
    if versioned then
      var v := Offset(s, i, ':', sizeMax);
      if !v.0 then Malformed
      else
        var e := Offset(s, v.2, '\0', sizeMax);
        if !e.0 then Malformed else Resolved(if planner then PlannerKey(v.1, e.1) else ExecutorKey(v.1, e.1))
    else
      var e := Offset(s, i, '\0', sizeMax);
      if !e.0 then Malformed else Resolved(RootKey(e.1))
  }

  function Parse(s: string, sizeMax: nat): Parsed {
    if HasPrefix(s, ROOT) then ParseFrom(s, |ROOT|, false, true, sizeMax)
    else if HasPrefix(s, PLANNER) then ParseFrom(s, |PLANNER|, true, true, sizeMax)
    else if HasPrefix(s, EXECUTOR) then ParseFrom(s, |EXECUTOR|, true, false, sizeMax)
    else Unresolved
  }

  /** The cursor-driven parser computes the same. */
  method ParseTurn(s: string, sizeMax: nat) returns (r: Parsed)
    requires sizeMax >= 9
    ensures r == Parse(s, sizeMax)
  {
    hide OffsetAt, DigitsEnd;
    var cursor, version, event, ok := 0, 0, 0, true;
    var versioned, planner := false, true;
    if HasPrefix(s, ROOT) {
      cursor := |ROOT|;
    } else if HasPrefix(s, PLANNER) || HasPrefix(s, EXECUTOR) {
      planner := s[0] == 'p';
      assert HasPrefix(s, EXECUTOR) ==> EXECUTOR[0] == 'e' && s[..|EXECUTOR|][0] == s[0];
      assert HasPrefix(s, PLANNER) ==> PLANNER[0] == 'p' && s[..|PLANNER|][0] == s[0];
      cursor, versioned := if planner then |PLANNER| else |EXECUTOR|, true;
      ok, version, cursor := OriginOffset(s, cursor, ':', sizeMax);
      if !ok { return Malformed; }
    } else {
      return Unresolved;
    }
    ok, event, cursor := OriginOffset(s, cursor, '\0', sizeMax);
    if !ok { return Malformed; }
    r := Resolved(if !versioned then RootKey(event)
                  else if planner then PlannerKey(version, event) else ExecutorKey(version, event));
  }

  /** Reading a printed decimal inside a string. */
  lemma OffsetOfDecimal(s: string, i: nat, n: nat, terminator: char, sizeMax: nat)
    requires i <= |s| && Fits(n, sizeMax) && !Digit(terminator)
    requires i + |Decimal(n)| <= |s| && s[i..i + |Decimal(n)|] == Decimal(n) && At(s, i + |Decimal(n)|) == terminator
    ensures Offset(s, i, terminator, sizeMax)
      == (true, n, i + |Decimal(n)| + (if terminator == '\0' then 0 else 1))
  {
    SameDigitsEnd(s, i, i + |Decimal(n)|);
    ValueOfDecimal(n);
  }

  lemma DecimalOfOffset(s: string, i: nat, terminator: char, sizeMax: nat)
    requires i <= |s| && !Digit(terminator) && Offset(s, i, terminator, sizeMax).0
    ensures var r := Offset(s, i, terminator, sizeMax);
      && Fits(r.1, sizeMax) && s[i..DigitsEnd(s, i)] == Decimal(r.1)
      && r.2 == DigitsEnd(s, i) + (if terminator == '\0' then 0 else 1) && At(s, DigitsEnd(s, i)) == terminator
  {
    DecimalOfValue(s[i..DigitsEnd(s, i)]);
  }

  lemma VersionedParses(prefix: string, version: nat, event: nat, planner: bool, sizeMax: nat)
    requires Fits(version, sizeMax) && Fits(event, sizeMax)
    ensures ParseFrom(Versioned(prefix, version, event), |prefix|, true, planner, sizeMax)
      == Resolved(if planner then PlannerKey(version, event) else ExecutorKey(version, event))
  {
    var s, v, e := Versioned(prefix, version, event), Decimal(version), Decimal(event);
    var i, j := |prefix|, |prefix| + |v| + 1;
    assert s[i..i + |v|] == v && s[i + |v|] == ':' && s[j..j + |e|] == e && |s| == j + |e|;
    OffsetOfDecimal(s, i, version, ':', sizeMax);
    OffsetOfDecimal(s, j, event, '\0', sizeMax);
  }

  lemma VersionedPrints(s: string, prefix: string, planner: bool, sizeMax: nat)
    requires HasPrefix(s, prefix) && NulFree(s) && ParseFrom(s, |prefix|, true, planner, sizeMax).Resolved?
    ensures var k := ParseFrom(s, |prefix|, true, planner, sizeMax).key;
      !k.RootKey? && InRange(k, sizeMax) && k.PlannerKey? == planner && s == Versioned(prefix, k.version, k.event)
  {
    hide OffsetAt;
    var i := |prefix|;
    var v := Offset(s, i, ':', sizeMax);
    var e := Offset(s, v.2, '\0', sizeMax);
    DecimalOfOffset(s, i, ':', sizeMax);
    DecimalOfOffset(s, v.2, '\0', sizeMax);
    var m := DigitsEnd(s, i);
    hide DigitsEnd, Offset, Decimal;
    assert DigitsEnd(s, v.2) == |s|;
    Glued(s, i, m);
  }

  lemma Glued(s: string, i: nat, m: nat)
    requires i <= m < |s|
    ensures s == s[..i] + s[i..m] + [s[m]] + s[m + 1..]
  {
  }

  lemma RootParses(event: nat, sizeMax: nat)
    requires Fits(event, sizeMax)
    ensures ParseFrom(ROOT + Decimal(event), |ROOT|, false, true, sizeMax) == Resolved(RootKey(event))
  {
    var s := ROOT + Decimal(event);
    assert s[|ROOT|..|ROOT| + |Decimal(event)|] == Decimal(event) && |s| == |ROOT| + |Decimal(event)|;
    OffsetOfDecimal(s, |ROOT|, event, '\0', sizeMax);
  }

  lemma NoPrefix(s: string, prefix: string, i: nat)
    requires i < |s| && i < |prefix| && s[i] != prefix[i]
    ensures !HasPrefix(s, prefix)
  {
    if |prefix| <= |s| { assert s[..|prefix|][i] == s[i]; }
  }

  lemma PrefixesOf(k: Key)
    ensures k.RootKey? ==> HasPrefix(Print(k), ROOT)
    ensures k.PlannerKey? ==> HasPrefix(Print(k), PLANNER) && !HasPrefix(Print(k), ROOT)
    ensures k.ExecutorKey? ==>
      HasPrefix(Print(k), EXECUTOR) && !HasPrefix(Print(k), PLANNER) && !HasPrefix(Print(k), ROOT)
  {
    var s := Print(k);
    assert ROOT[8] == 'r' && ROOT[0] == 'p' && PLANNER[0] == 'p' && EXECUTOR[0] == 'e';
    match k
    case RootKey(event) =>
      assert s[..|ROOT|] == ROOT;
    case PlannerKey(version, event) =>
      assert s[..|PLANNER|] == PLANNER && s[|PLANNER|] == Decimal(version)[0];
      NoPrefix(s, ROOT, 8);
    case ExecutorKey(version, event) =>
      assert s[..|EXECUTOR|] == EXECUTOR && s[0] == 'e';
      NoPrefix(s, ROOT, 0);
      NoPrefix(s, PLANNER, 0);
  }

  /** Every key in range is read back from its own text. */
  lemma ParsePrint(k: Key, sizeMax: nat)
    requires InRange(k, sizeMax)
    ensures Parse(Print(k), sizeMax) == Resolved(k)
  {
    hide ParseFrom, HasPrefix;
    PrefixesOf(k);
    match k
    case RootKey(event) => RootParses(event, sizeMax);
    case PlannerKey(version, event) => VersionedParses(PLANNER, version, event, true, sizeMax);
    case ExecutorKey(version, event) => VersionedParses(EXECUTOR, version, event, false, sizeMax);
  }

  /** Only the canonical text of a key is accepted: no alias resolves. */
  lemma PrintParse(s: string, sizeMax: nat)
    requires NulFree(s) && Parse(s, sizeMax).Resolved?
    ensures InRange(Parse(s, sizeMax).key, sizeMax) && Print(Parse(s, sizeMax).key) == s
  {
    if HasPrefix(s, ROOT) {
      DecimalOfOffset(s, |ROOT|, '\0', sizeMax);
      assert DigitsEnd(s, |ROOT|) == |s|;
      assert s == s[..|ROOT|] + s[|ROOT|..];
    } else if HasPrefix(s, PLANNER) {
      VersionedPrints(s, PLANNER, true, sizeMax);
    } else {
      VersionedPrints(s, EXECUTOR, false, sizeMax);
    }
  }

  /** Accepted texts and keys correspond one to one, so equal event ids mean the same event. */
  lemma OneToOne(s: string, t: string, sizeMax: nat)
    requires NulFree(s) && NulFree(t) && Parse(s, sizeMax).Resolved? && Parse(t, sizeMax).Resolved?
    ensures s == t <==> Parse(s, sizeMax) == Parse(t, sizeMax)
  {
    PrintParse(s, sizeMax);
    PrintParse(t, sizeMax);
  }
}
