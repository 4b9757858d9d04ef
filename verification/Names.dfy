/** Pod, claim and owner names: printing and parsing (controllers/stateful_set_utils.go:50-97, 464-476). */
module Names {
  import opened Pods

  // ---------- decimal numbers ----------

  const DIGITS := "0123456789"

  predicate IsDigit(c: char) {
    '0' <= c <= '9'
  }

  predicate AllDigits(s: string) {
    forall i | 0 <= i < |s| :: IsDigit(s[i])
  }

  function DigitValue(c: char): nat
    requires IsDigit(c)
  {
    c as int - '0' as int
  }

  function Value(s: string): nat
    requires AllDigits(s)
  {
    if s == [] then 0 else 10 * Value(s[..|s| - 1]) + DigitValue(s[|s| - 1])
  }

  function Decimal(n: nat): (s: string)
    ensures s != [] && AllDigits(s)
  {
    if n < 10 then [DIGITS[n]] else Decimal(n / 10) + [DIGITS[n % 10]]
  }

  function Itoa(n: int): string {
    if n < 0 then "-" + Decimal(-n) else Decimal(n)
  }

  lemma DigitRoundTrip(d: nat)
    requires d < 10
    ensures IsDigit(DIGITS[d]) && DigitValue(DIGITS[d]) == d
  {
  }

  lemma DigitChar(c: char)
    requires IsDigit(c)
    ensures DigitValue(c) < 10 && DIGITS[DigitValue(c)] == c
  {
  }

  lemma {:induction false} ValueOfDecimal(n: nat)
    ensures Value(Decimal(n)) == n
  {
    var s := Decimal(n);
    if n < 10 {
      DigitRoundTrip(n);
      assert s[..|s| - 1] == [];
    } else {
      ValueOfDecimal(n / 10);
      DigitRoundTrip(n % 10);
      assert s[..|s| - 1] == Decimal(n / 10);
    }
  }

  /** Digits as a printer writes them: no leading zero. */
  predicate CanonicalDigits(s: string) {
    s != [] && AllDigits(s) && (|s| == 1 || s[0] != '0')
  }

  lemma {:induction false} CanonicalPositive(s: string)
    requires CanonicalDigits(s) && s != "0"
    ensures Value(s) > 0
  {
    if |s| > 1 {
      CanonicalPositive(s[..|s| - 1]);
    } else {
      assert s[..0] == [] && s == [s[0]];
    }
  }

  lemma {:induction false} DecimalIsCanonical(n: nat)
    ensures CanonicalDigits(Decimal(n)) && (n > 0 ==> Decimal(n)[0] != '0')
  {
    if n >= 10 {
      DecimalIsCanonical(n / 10);
    }
  }

  lemma {:induction false} DecimalOfValue(s: string)
    requires s != [] && AllDigits(s)
    ensures Decimal(Value(s)) == s <==> CanonicalDigits(s)
  {
    DecimalIsCanonical(Value(s));
    if CanonicalDigits(s) {
      var init, last := s[..|s| - 1], s[|s| - 1];
      assert s == init + [last];
      DigitChar(last);
      if |s| > 1 {
        DecimalOfValue(init);
        CanonicalPositive(init);
        assert Value(s) / 10 == Value(init) && Value(s) % 10 == DigitValue(last);
      }
    }
  }

  // ---------- the last dash ----------

  /** Index of the last dash, or -1. */
  function LastDash(s: string): (i: int)
    ensures -1 <= i < |s|
    ensures i >= 0 ==> s[i] == '-'
    ensures forall j | i < j < |s| :: s[j] != '-'
  {
    if s == [] then -1
    else if s[|s| - 1] == '-' then |s| - 1
    else LastDash(s[..|s| - 1])
  }

  lemma LastDashAt(s: string, k: nat)
    requires k < |s| && s[k] == '-' && forall j | k < j < |s| :: s[j] != '-'
    ensures LastDash(s) == k
  {
    hide LastDash;
  }

  // ---------- pod names ----------

  function PodName(owner: string, ordinal: int): string {
    owner + "-" + Itoa(ordinal)
  }

  /** The pattern "(.*)-([0-9]+)$" matches. */
  predicate HasOrdinal(name: string) {
    var d := LastDash(name);
    d >= 0 && d + 1 < |name| && AllDigits(name[d + 1..])
  }

  function OrdinalText(name: string): string
    requires HasOrdinal(name)
  {
    name[LastDash(name) + 1..]
  }

  function Parent(name: string): string {
    if HasOrdinal(name) then name[..LastDash(name)] else ""
  }

  /** An ordinal beyond int32 does not parse. */
  function Ordinal(name: string): int {
    if HasOrdinal(name) && Value(OrdinalText(name)) <= MAX_INT32 then Value(OrdinalText(name)) else -1
  }

  lemma SplitPodName(owner: string, tail: string)
    requires tail != [] && AllDigits(tail)
    ensures
      var name := owner + "-" + tail;
      HasOrdinal(name) && Parent(name) == owner && OrdinalText(name) == tail
  {
    hide LastDash, Value;
    var name := owner + "-" + tail;
    assert name[|owner| + 1..] == tail && name[..|owner|] == owner;
    forall j | |owner| < j < |name|
      ensures name[j] != '-'
    {
      assert name[j] == name[|owner| + 1..][j - |owner| - 1];
      assert IsDigit(tail[j - |owner| - 1]);
    }
    LastDashAt(name, |owner|);
  }

  /** Parsing a printed name gives back the set and the ordinal. */
  lemma ParseOfPrint(owner: string, ordinal: int)
    requires 0 <= ordinal <= MAX_INT32
    ensures
      var name := PodName(owner, ordinal);
      HasOrdinal(name) && Parent(name) == owner && Ordinal(name) == ordinal
  {
    SplitPodName(owner, Decimal(ordinal));
    ValueOfDecimal(ordinal);
  }

  /** Printing a parse gives back the name exactly when the digits are canonical. */
  lemma PrintOfParse(name: string)
    requires Ordinal(name) >= 0
    ensures PodName(Parent(name), Ordinal(name)) == name <==> CanonicalDigits(OrdinalText(name))
  {
    var tail := OrdinalText(name);
    assert name == Parent(name) + "-" + tail;
    DecimalOfValue(tail);
    var printed := Decimal(Ordinal(name));
    if PodName(Parent(name), Ordinal(name)) == name {
      assert (Parent(name) + "-" + printed)[|Parent(name)| + 1..] == printed;
    }
  }

  /** A pod without an ordinal would be renamed to "<set>--1", which parses to ordinal 1 of another set. */
  lemma NoOrdinalPrintsAmbiguously(owner: string)
    ensures Parent(PodName(owner, -1)) == owner + "-" && Ordinal(PodName(owner, -1)) == 1
  {
    assert PodName(owner, -1) == (owner + "-") + "-" + Decimal(1);
    ParseOfPrint(owner + "-", 1);
  }

  // ---------- keys ----------

  function KeyOf(owner: string, name: string): Key {
    if Ordinal(name) >= 0 && name == PodName(owner, Ordinal(name)) then Slot(Ordinal(name))
    else Alias(Ordinal(name), name)
  }

  /** Keys stand for names: distinct names have distinct keys, the key carries the parsed ordinal, and the
      canonical name of every int32 ordinal is its slot. */
  lemma KeysAreNames(owner: string, a: string, b: string, ordinal: int)
    ensures KeyOf(owner, a) == KeyOf(owner, b) <==> a == b
    ensures KeyOf(owner, a).ordinal == Ordinal(a)
    ensures 0 <= ordinal <= MAX_INT32 ==> KeyOf(owner, PodName(owner, ordinal)) == Slot(ordinal)
  {
    if 0 <= ordinal <= MAX_INT32 {
      ParseOfPrint(owner, ordinal);
    }
  }

  // ---------- reconcile requests ----------

  /** A request named after a pod is redirected to the pod's set. */
  function RealReconcileName(name: string): string {
    if HasOrdinal(name) && Value(OrdinalText(name)) <= MAX_INT32 then Parent(name) else name
  }

  lemma PodRequestsReachTheSet(owner: string, ordinal: int)
    requires 0 <= ordinal <= MAX_INT32
    ensures RealReconcileName(PodName(owner, ordinal)) == owner
  {
    ParseOfPrint(owner, ordinal);
  }

  /** A request for a set reaches that set if and only if its own name does not end in a dash and an
      int32 number. */
  lemma SetRequestsReachTheSet(owner: string)
    ensures RealReconcileName(owner) == owner <==> Ordinal(owner) < 0
  {
    if Ordinal(owner) >= 0 {
      assert |Parent(owner)| < |owner|;
    }
  }

  // ---------- claims ----------

  function ClaimName(claim: string, owner: string, ordinal: int): string {
    claim + "-" + owner + "-" + Itoa(ordinal)
  }

  lemma ClaimIsOfPod(owner: string, c: string, ordinal: int)
    ensures ClaimName(c, owner, ordinal) == c + "-" + PodName(owner, ordinal)
  {
    hide Itoa;
    assert c + "-" + owner + "-" + Itoa(ordinal) == c + "-" + (owner + "-" + Itoa(ordinal));
  }

  /** A claim is named after its template and its pod; for one set, claims of different templates or ordinals
      have different names. */
  lemma ClaimNamesAreInjective(owner: string, c1: string, o1: nat, c2: string, o2: nat)
    ensures ClaimName(c1, owner, o1) == c1 + "-" + PodName(owner, o1)
    ensures ClaimName(c1, owner, o1) == ClaimName(c2, owner, o2) <==> c1 == c2 && o1 == o2
  {
    ClaimIsOfPod(owner, c1, o1);
    var p1, p2 := c1 + "-" + owner, c2 + "-" + owner;
    assert ClaimName(c1, owner, o1) == p1 + "-" + Decimal(o1);
    assert ClaimName(c2, owner, o2) == p2 + "-" + Decimal(o2);
    SplitPodName(p1, Decimal(o1));
    SplitPodName(p2, Decimal(o2));
    ValueOfDecimal(o1);
    ValueOfDecimal(o2);
    if p1 == p2 {
      assert |c1| == |c2|;
      assert c1 == p1[..|c1|] && c2 == p2[..|c2|];
    }
  }
}
