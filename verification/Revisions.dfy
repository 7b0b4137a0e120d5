/** Revision names issued by the synchronization journal (backend/app/services/sync.py). */
module Revisions {

  /** Position of the digit in the ASCII block '0'..'9'. */
  function Digit(d: nat): char
    requires d < 10
  {
    (d as char) + '0'
  }

  function Decimal(n: nat): (s: string)
    ensures |s| > 0
    ensures forall i :: 0 <= i < |s| ==> s[i] != '-'
  {
    if n < 10 then [Digit(n)] else Decimal(n / 10) + [Digit(n % 10)]
  }

  /** Reads a decimal numeral back. */
  function Numeral(s: string): int {
    if s == "" then 0 else 10 * Numeral(s[..|s| - 1]) + (s[|s| - 1] as int - '0' as int)
  }

  lemma {:induction false} DecimalRoundTrip(n: nat)
    ensures Numeral(Decimal(n)) == n
  {
    if n < 10 {
      assert Decimal(n)[..0] == "";
    } else {
      DecimalRoundTrip(n / 10);
      assert Decimal(n)[..|Decimal(n)| - 1] == Decimal(n / 10);
    }
  }

  /** "r{cursor}-{first twelve hexadecimal digits of the operation id}". */
  function NextRevision(cursor: nat, operation: string): string {
    "r" + Decimal(cursor) + "-" + if |operation| < 12 then operation else operation[..12]
  }

  /** A revision name determines the cursor it was issued at, whatever the operation ids are. */
  lemma RevisionNamesItsCursor(c1: nat, o1: string, c2: nat, o2: string)
    requires NextRevision(c1, o1) == NextRevision(c2, o2)
    ensures c1 == c2
  {
    var r1, r2 := NextRevision(c1, o1), NextRevision(c2, o2);
    var d1, d2 := Decimal(c1), Decimal(c2);
    assert r1[1 + |d1|] == '-' && r2[1 + |d2|] == '-';
    assert forall i :: 0 <= i < |d1| ==> r1[1 + i] == d1[i];
    assert forall i :: 0 <= i < |d2| ==> r2[1 + i] == d2[i];
    assert |d1| == |d2|;
    assert d1 == r1[1..1 + |d1|] == r2[1..1 + |d2|] == d2;
    DecimalRoundTrip(c1);
    DecimalRoundTrip(c2);
  }
}
