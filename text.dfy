/** The text primitives the repository builds its SQL from: strconv.Itoa, strconv.FormatBool,
    strings.Join, the "append an entry and a separator" loops, and Go map enumeration. */
module Text {
  import opened Outcomes

  predicate IsDigit(c: char) { '0' <= c <= '9' }

  predicate AllDigits(s: string) { forall i :: 0 <= i < |s| ==> IsDigit(s[i]) }

  function DigitChar(d: nat): (c: char)
    requires d < 10
    ensures IsDigit(c)
  {
    (48 + d) as char
  }

  function DigitValue(c: char): nat
    requires IsDigit(c)
  {
    c as int - 48
  }

  /** Decimal digits of a non-negative number, most significant first, without leading zeros. */
  function NatToDecimal(n: nat): (s: string)
    ensures |s| >= 1 && AllDigits(s)
    ensures |s| > 1 ==> s[0] != '0'
    decreases n
  {
    if n < 10 then [DigitChar(n)] else NatToDecimal(n / 10) + [DigitChar(n % 10)]
  }

  /** The value of a string of decimal digits: the inverse of NatToDecimal. */
  function DecimalToNat(s: string): nat
    requires AllDigits(s)
  {
    if s == [] then 0 else DecimalToNat(s[..|s| - 1]) * 10 + DigitValue(s[|s| - 1])
  }

  lemma {:induction false} DecimalRoundTrip(n: nat)
    ensures DecimalToNat(NatToDecimal(n)) == n
    decreases n
  {
    if n >= 10 {
      DecimalRoundTrip(n / 10);
      var s := NatToDecimal(n);
      assert s[..|s| - 1] == NatToDecimal(n / 10);
    }
  }

  /** strconv.Itoa: an optional minus sign followed by the decimal digits of the magnitude. */
  function Itoa(i: int): (s: string)
    ensures |s| >= 1
    ensures s[0] == '-' <==> i < 0
    ensures AllDigits(s[1..])
    ensures i >= 0 ==> AllDigits(s)
  {
    if i < 0 then "-" + NatToDecimal(-i) else NatToDecimal(i)
  }

  /** Distinct integers have distinct decimal texts, so a map keyed by Itoa(k) groups the same
      way as a map keyed by k. */
  lemma ItoaInjective(a: int, b: int)
    requires Itoa(a) == Itoa(b)
    ensures a == b
  {
    if a < 0 {
      assert Itoa(a)[1..] == NatToDecimal(-a) && Itoa(b)[1..] == NatToDecimal(-b);
      DecimalRoundTrip(-a);
      DecimalRoundTrip(-b);
    } else {
      DecimalRoundTrip(a);
      DecimalRoundTrip(b);
    }
  }

  /** strconv.FormatBool (and the %t verb). */
  function FormatBool(b: bool): (s: string)
    ensures s == "true" || s == "false"
  {
    if b then "true" else "false"
  }

  /** The inverse of FormatBool, accepting its two outputs only; unlike strconv.ParseBool it
      refuses "1", "t", "TRUE" and the other spellings Go accepts. */
  function ParseBool(s: string): (r: Option<bool>)
    ensures r.Some? <==> (s == "true" || s == "false")
    ensures forall b :: FormatBool(b) == s ==> r == Some(b)
  {
    if s == "true" then Some(true) else if s == "false" then Some(false) else None
  }

  /** strings.Join: the parts with the separator between neighbours. */
  function Join(parts: seq<string>, sep: string): string
    decreases |parts|
  {
    if |parts| == 0 then ""
    else if |parts| == 1 then parts[0]
    else Join(parts[..|parts| - 1], sep) + sep + parts[|parts| - 1]
  }

  /** What a loop writing "part + sep" for every part produces: every part is followed by a separator. */
  function Terminated(parts: seq<string>, sep: string): string
    decreases |parts|
  {
    if |parts| == 0 then "" else Terminated(parts[..|parts| - 1], sep) + parts[|parts| - 1] + sep
  }

  /** Stripping the last separator from a terminated list gives the joined list. */
  lemma {:induction false} TerminatedIsJoinedPlusSep(parts: seq<string>, sep: string)
    requires |parts| > 0
    ensures Terminated(parts, sep) == Join(parts, sep) + sep
    decreases |parts|
  {
    if |parts| > 1 {
      TerminatedIsJoinedPlusSep(parts[..|parts| - 1], sep);
    }
  }

  /** A non-empty joined list ends with its last part, so never with the separator unless that part does. */
  lemma {:induction false} JoinEndsWithLast(parts: seq<string>, sep: string)
    requires |parts| > 0
    ensures EndsWith(Join(parts, sep), parts[|parts| - 1])
  {
  }

  /** Every part of a joined list occurs in it. */
  lemma {:induction false} JoinContainsPart(parts: seq<string>, sep: string, i: nat)
    requires i < |parts|
    ensures Contains(Join(parts, sep), parts[i])
    decreases |parts|
  {
    var n := |parts| - 1;
    if n == 0 {
      assert Join(parts, sep) == "" + parts[0] + "";
      ContainsInConcat("", parts[0], "");
    } else if i == n {
      assert Join(parts, sep) == Join(parts[..n], sep) + sep + parts[n] + "";
      ContainsInConcat(Join(parts[..n], sep) + sep, parts[n], "");
    } else {
      JoinContainsPart(parts[..n], sep, i);
      assert parts[..n][i] == parts[i];
      assert Join(parts, sep) == "" + Join(parts[..n], sep) + (sep + parts[n]);
      ContainsWithin("", Join(parts[..n], sep), sep + parts[n], parts[i]);
    }
  }

  /** Number of occurrences of a character in a string. */
  function Occurrences(c: char, s: string): nat
    decreases |s|
  {
    if s == [] then 0 else Occurrences(c, s[..|s| - 1]) + (if s[|s| - 1] == c then 1 else 0)
  }

  lemma {:induction false} OccurrencesAppend(c: char, a: string, b: string)
    ensures Occurrences(c, a + b) == Occurrences(c, a) + Occurrences(c, b)
    decreases |b|
  {
    if b != [] {
      OccurrencesAppend(c, a, b[..|b| - 1]);
      assert (a + b)[..|a + b| - 1] == a + b[..|b| - 1];
    } else {
      assert a + b == a;
    }
  }

  lemma {:induction false} OccurrencesAbsent(c: char, s: string)
    requires forall i :: 0 <= i < |s| ==> s[i] != c
    ensures Occurrences(c, s) == 0
    decreases |s|
  {
    if s != [] {
      OccurrencesAbsent(c, s[..|s| - 1]);
    }
  }

  lemma NoOccurrences(c: char, s: string)
    requires c !in s
    ensures Occurrences(c, s) == 0
  {
    OccurrencesAbsent(c, s);
  }

  predicate EndsWith(s: string, suffix: string) {
    |suffix| <= |s| && s[|s| - |suffix|..] == suffix
  }

  /** A suffix of s ends every extension of s on the left. */
  lemma EndsWithConcat(prefix: string, s: string)
    ensures EndsWith(prefix + s, s)
  {
    assert (prefix + s)[|prefix|..] == s;
  }

  /** s does not end with t if t is longer, or if the two differ at some position of t. */
  lemma DiffersAt(s: string, t: string, k: nat)
    requires k < |t|
    requires |t| > |s| || s[|s| - |t| + k] != t[k]
    ensures !EndsWith(s, t)
  {
  }

  ghost predicate Visits<K, V>(order: seq<K>, m: map<K, V>) {
    forall i :: 0 <= i < |order| ==> order[i] in m
  }

  predicate OccursAt(s: string, t: string, i: int) {
    0 <= i && i + |t| <= |s| && s[i..i + |t|] == t
  }

  /** t is a substring of s. */
  ghost predicate Contains(s: string, t: string) {
    exists i :: OccursAt(s, t, i)
  }

  lemma ContainsInConcat(a: string, t: string, b: string)
    ensures Contains(a + t + b, t)
  {
    assert (a + t + b)[|a|..|a| + |t|] == t;
    assert OccursAt(a + t + b, t, |a|);
  }

  lemma ContainsWithin(a: string, s: string, b: string, t: string)
    requires Contains(s, t)
    ensures Contains(a + s + b, t)
  {
    var i :| OccursAt(s, t, i);
    assert (a + s + b)[|a| + i..|a| + i + |t|] == s[i..i + |t|];
    assert OccursAt(a + s + b, t, |a| + i);
  }

  ghost predicate Distinct<K>(s: seq<K>) {
    forall i, j :: 0 <= i < j < |s| ==> s[i] != s[j]
  }

  /** `order` is one of the orders in which Go's `range` over the map m may visit its keys:
      every key exactly once. */
  ghost predicate Enumerates<K(!new), V>(order: seq<K>, m: map<K, V>) {
    Distinct(order) && Visits(order, m) && forall k :: k in m ==> k in order
  }

  lemma {:induction false} DistinctSetSize<K>(s: seq<K>)
    requires Distinct(s)
    ensures |set k | k in s| == |s|
    decreases |s|
  {
    if s != [] {
      var init := s[..|s| - 1];
      DistinctSetSize(init);
      assert (set k | k in s) == (set k | k in init) + {s[|s| - 1]};
      assert s[|s| - 1] !in init;
    }
  }

  /** An enumeration visits exactly as many keys as the map holds. */
  lemma EnumerationSize<K(!new), V>(order: seq<K>, m: map<K, V>)
    requires Enumerates(order, m)
    ensures |order| == |m|
  {
    assert m.Keys == set k | k in order;
    DistinctSetSize(order);
  }

  /** The position at which an enumeration visits a key. */
  lemma EnumerationIndex<K(!new), V>(order: seq<K>, m: map<K, V>, k: K) returns (i: nat)
    requires Enumerates(order, m) && k in m
    ensures i < |order| && order[i] == k
    ensures forall j :: 0 <= j < |order| && order[j] == k ==> j == i
  {
    i :| 0 <= i < |order| && order[i] == k;
  }
}
