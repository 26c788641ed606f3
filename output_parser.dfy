/**
 * The search `stdout.match(/Maximum (\d+)%/)` followed by
 * `parseInt(match[1], 10)`: the leftmost position where "Maximum " is
 * immediately followed by one or more ASCII digits and then '%'.
 */
module OutputParser {
  import opened Wrappers
  import opened Decimal

  /** The literal part of the pattern in front of the captured digits. */
  const Marker: string := "Maximum "

  /**
   * The pattern matches at `i` with a digit group of length `k`: "Maximum "
   * starts at `i`, then `k >= 1` digits, then '%'. Since '%' is not a digit,
   * the group is the whole digit run, as the greedy `\d+` takes it.
   */
  ghost predicate IsMatch(s: string, i: nat, k: nat) {
    && k >= 1
    && i + |Marker| + k < |s|
    && s[i..i + |Marker|] == Marker
    && AllDigits(s[i + |Marker|..i + |Marker| + k])
    && s[i + |Marker| + k] == '%'
  }

  /** A match with no match at any earlier position: the one `match` returns. */
  ghost predicate IsLeftmostMatch(s: string, i: nat, k: nat) {
    IsMatch(s, i, k) && forall j: nat, k': nat :: j < i ==> !IsMatch(s, j, k')
  }

  /** The captured group of a match. */
  ghost function Group(s: string, i: nat, k: nat): (g: string)
    requires IsMatch(s, i, k)
    ensures AllDigits(g) && |g| == k
  {
    s[i + |Marker|..i + |Marker| + k]
  }

  /** At a given position, at most one group length makes the pattern match. */
  lemma MatchLengthUnique(s: string, i: nat, k: nat, k': nat)
    requires IsMatch(s, i, k) && IsMatch(s, i, k')
    ensures k == k'
  {
  }

  /** The length of the run of digits that starts at `j` (greedy `\d*`). */
  function DigitRunLength(s: string, j: nat): (n: nat)
    requires j <= |s|
    ensures j + n <= |s|
    ensures AllDigits(s[j..j + n])
    ensures j + n == |s| || !IsDigit(s[j + n])
    decreases |s| - j
  {
    if j < |s| && IsDigit(s[j]) then 1 + DigitRunLength(s, j + 1) else 0
  }

  /** The length of the group if the pattern matches at `i`, else None. */
  function MatchAt(s: string, i: nat): (r: Option<nat>)
    ensures r.Some? ==> IsMatch(s, i, r.value)
    ensures r.None? ==> forall k: nat :: !IsMatch(s, i, k)
  {
    var b := i + |Marker|;
    if b <= |s| && s[i..b] == Marker then
      var k := DigitRunLength(s, b);
      if k >= 1 && b + k < |s| && s[b + k] == '%' then
        Some(k)
      else
        None
    else
      None
  }

  /** Tries positions `i`, `i + 1`, ... in order and stops at the first match. */
  function Scan(s: string, i: nat): (r: Option<(nat, nat)>)
    requires i <= |s|
    ensures r.Some? ==> i <= r.value.0 && IsMatch(s, r.value.0, r.value.1)
    ensures r.Some? ==> forall j: nat, k: nat :: i <= j < r.value.0 ==> !IsMatch(s, j, k)
    ensures r.None? ==> forall j: nat, k: nat :: i <= j ==> !IsMatch(s, j, k)
    decreases |s| - i
  {
    match MatchAt(s, i)
    case Some(k) => Some((i, k))
    case None => if i == |s| then None else Scan(s, i + 1)
  }

  /**
   * The number the initial query reads from the tool's standard output:
   * the decimal value of the group of the leftmost match, or None when the
   * pattern occurs nowhere.
   */
  function ParseMaximum(s: string): (r: Option<nat>)
    ensures r.None? <==> forall i: nat, k: nat :: !IsMatch(s, i, k)
    ensures r.Some? ==> exists i: nat, k: nat :: IsLeftmostMatch(s, i, k) && r.value == DecimalValue(Group(s, i, k))
    ensures forall i: nat, k: nat :: IsLeftmostMatch(s, i, k) ==> r == Some(DecimalValue(Group(s, i, k)))
  {
    match Scan(s, 0)
    case None => None
    case Some((i, k)) =>
      var v := DecimalValue(s[i + |Marker|..i + |Marker| + k]);
      assert IsLeftmostMatch(s, i, k);
      assert forall i': nat, k': nat :: IsLeftmostMatch(s, i', k') ==> i' == i && k' == k by {
        forall i': nat, k': nat | IsLeftmostMatch(s, i', k') ensures i' == i && k' == k {
          MatchLengthUnique(s, i, k, k');
        }
      }
      Some(v)
  }

  /** A match at the very start of the output is the leftmost one. */
  lemma MatchAtStart(s: string, k: nat)
    requires IsMatch(s, 0, k)
    ensures ParseMaximum(s) == Some(DecimalValue(Group(s, 0, k)))
  {
    assert IsLeftmostMatch(s, 0, k);
  }

  /** The text "Maximum " + d + "%" + rest matches at 0 with group d. */
  lemma ReportMatches(d: string, rest: string)
    requires |d| >= 1 && AllDigits(d)
    ensures IsMatch(Marker + d + "%" + rest, 0, |d|)
    ensures Group(Marker + d + "%" + rest, 0, |d|) == d
  {
    var s := Marker + d + "%" + rest;
    assert s[0..|Marker|] == Marker;
    assert s[|Marker|..|Marker| + |d|] == d;
    assert s[|Marker| + |d|] == '%';
  }

  /**
   * A tool that prints "Maximum N%" at the start of its output (with N
   * written by `toString`) is read back as N, whatever follows.
   */
  lemma {:induction false} ParseToolReport(n: nat, rest: string)
    ensures ParseMaximum(Marker + NatToDecimal(n) + "%" + rest) == Some(n)
  {
    var d := NatToDecimal(n);
    ReportMatches(d, rest);
    MatchAtStart(Marker + d + "%" + rest, |d|);
    DecimalOfNatToDecimal(n);
  }

  /** Leading zeros in the group are read as `parseInt` reads them ("Maximum 0100%" is 100). */
  lemma {:induction false} ParseZeroPadded(z: string, n: nat, rest: string)
    requires forall i :: 0 <= i < |z| ==> z[i] == '0'
    ensures ParseMaximum(Marker + z + NatToDecimal(n) + "%" + rest) == Some(n)
  {
    var d := z + NatToDecimal(n);
    assert Marker + z + NatToDecimal(n) + "%" + rest == Marker + d + "%" + rest;
    LeadingZerosIgnored(z, NatToDecimal(n));
    ReportMatches(d, rest);
    MatchAtStart(Marker + d + "%" + rest, |d|);
    DecimalOfNatToDecimal(n);
  }

  /** The first occurrence wins: a later report does not override it. */
  lemma {:induction false} ParseLeftmostWins(a: nat, b: nat)
    ensures ParseMaximum(Marker + NatToDecimal(a) + "%\n" + Marker + NatToDecimal(b) + "%") == Some(a)
  {
    var tail := "\n" + Marker + NatToDecimal(b) + "%";
    assert Marker + NatToDecimal(a) + "%\n" + Marker + NatToDecimal(b) + "%"
        == Marker + NatToDecimal(a) + "%" + tail;
    ParseToolReport(a, tail);
  }
}
