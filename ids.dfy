/** Rendering of prediction IDs, "PRED-<year>-<seq>": the year in decimal
    and the sequence number zero-padded to at least three digits, as the
    format strings f"PRED-{year}" and f"{count:03d}" produce them. */
module Ids {

  const ID_PREFIX := "PRED-"

  predicate IsDigits(s: string)
  {
    forall i :: 0 <= i < |s| ==> '0' <= s[i] <= '9'
  }

  function Digit(d: nat): (c: char)
    requires d < 10
    ensures '0' <= c <= '9' && c as int - '0' as int == d
  {
    ('0' as int + d) as char
  }

  /** The number a string of decimal digits denotes; leading zeros are allowed. */
  function ValueOf(s: string): nat
    requires IsDigits(s)
    decreases |s|
  {
    if s == [] then 0
    else ValueOf(s[..|s| - 1]) * 10 + (s[|s| - 1] as int - '0' as int)
  }

  /** The decimal rendering of a non-negative integer: no sign and, apart from
      zero itself, no leading zero. */
  function Decimal(n: nat): (s: string)
    ensures 1 <= |s| && IsDigits(s)
    ensures n >= 10 ==> s[0] != '0'
    decreases n
  {
    if n < 10 then [Digit(n)] else Decimal(n / 10) + [Digit(n % 10)]
  }

  lemma {:induction false} ValueOfDecimal(n: nat)
    ensures ValueOf(Decimal(n)) == n
    decreases n
  {
    if n >= 10 {
      ValueOfDecimal(n / 10);
      var s := Decimal(n);
      assert s[..|s| - 1] == Decimal(n / 10);
    }
  }

  /** Decimal rendering is one-to-one. */
  lemma DecimalInjective(m: nat, n: nat)
    requires Decimal(m) == Decimal(n)
    ensures m == n
  {
    ValueOfDecimal(m);
    ValueOfDecimal(n);
  }

  lemma {:induction false} DecimalLength(n: nat)
    ensures n < 10 ==> |Decimal(n)| == 1
    ensures 10 <= n < 100 ==> |Decimal(n)| == 2
    ensures 100 <= n < 1000 ==> |Decimal(n)| == 3
    ensures n >= 1000 ==> |Decimal(n)| >= 4
    decreases n
  {
    if n >= 10 {
      DecimalLength(n / 10);
    }
  }

  /** A leading zero does not change the value of a digit string. */
  lemma {:induction false} ValueOfLeadingZero(s: string)
    requires IsDigits(s)
    ensures IsDigits(['0'] + s) && ValueOf(['0'] + s) == ValueOf(s)
    decreases |s|
  {
    var t := ['0'] + s;
    if s != [] {
      assert t[..|t| - 1] == ['0'] + s[..|s| - 1];
      ValueOfLeadingZero(s[..|s| - 1]);
    }
  }

  /** k zero characters. */
  function Zeros(k: nat): (z: string)
    ensures |z| == k && IsDigits(z)
  {
    if k == 0 then [] else ['0'] + Zeros(k - 1)
  }

  lemma {:induction false} ValueOfLeadingZeros(k: nat, s: string)
    requires IsDigits(s)
    ensures IsDigits(Zeros(k) + s) && ValueOf(Zeros(k) + s) == ValueOf(s)
    decreases k
  {
    if k > 0 {
      var rest := Zeros(k - 1) + s;
      ValueOfLeadingZeros(k - 1, s);
      ValueOfLeadingZero(rest);
      assert Zeros(k) + s == ['0'] + rest;
    } else {
      assert Zeros(k) + s == s;
    }
  }

  /** f"{n:03d}": n in decimal, left-padded with zeros to three digits when
      it is shorter. It denotes n, is at least three digits long, is exactly
      three below 1000 and is not padded from 100 on. */
  function SeqText(n: nat): (r: string)
    ensures IsDigits(r) && ValueOf(r) == n
    ensures |r| >= 3
    ensures n < 1000 ==> |r| == 3
    ensures n >= 100 ==> r == Decimal(n)
  {
    var d := Decimal(n);
    DecimalLength(n);
    ValueOfDecimal(n);
    if |d| >= 3 then d
    else
      ValueOfLeadingZeros(3 - |d|, d);
      Zeros(3 - |d|) + d
  }

  /** f"PRED-{year}": the prefix that every ID of that year starts with. */
  function YearPrefix(year: nat): string
  {
    ID_PREFIX + Decimal(year)
  }

  /** The prefix is "PRED-" followed by digits that denote the year. */
  lemma YearPrefixText(year: nat)
    ensures var s := YearPrefix(year);
      && |s| > |ID_PREFIX| && s[..|ID_PREFIX|] == ID_PREFIX
      && IsDigits(s[|ID_PREFIX|..]) && ValueOf(s[|ID_PREFIX|..]) == year
  {
    var s := YearPrefix(year);
    assert s[|ID_PREFIX|..] == Decimal(year);
    ValueOfDecimal(year);
  }

  /** Concatenation of a list of strings. It stands for nothing in the
      source: FormatId is written with it only so that, being recursive, it
      is not unfolded everywhere an ID occurs, which keeps the proofs about
      lists of IDs small. FormatIdText gives the plain concatenation. */
  function Join(parts: seq<string>): string
    decreases |parts|
  {
    if parts == [] then "" else Join(parts[..|parts| - 1]) + parts[|parts| - 1]
  }

  lemma JoinThree(a: string, b: string, c: string)
    ensures Join([a, b, c]) == a + b + c
  {
    var p := [a, b, c];
    assert p[..2] == [a, b] && [a, b][..1] == [a] && [a][..0] == [];
    assert Join([a]) == a;
    assert Join([a, b]) == a + b;
  }

  /** f"PRED-{year}-{n:03d}": the ID with the given year and sequence number. */
  function FormatId(year: nat, n: nat): string
  {
    Join([YearPrefix(year), "-", SeqText(n)])
  }

  /** An ID is its year's prefix, a dash and the padded sequence number. */
  lemma FormatIdText(year: nat, n: nat)
    ensures FormatId(year, n) == YearPrefix(year) + "-" + SeqText(n)
  {
    JoinThree(YearPrefix(year), "-", SeqText(n));
  }

  /** Every ID starts with its year's prefix. */
  lemma FormatIdPrefix(year: nat, n: nat)
    ensures YearPrefix(year) <= FormatId(year, n)
  {
    FormatIdText(year, n);
  }

  /** The position of the first dash in s, or |s| when there is none. */
  function DashIndex(s: string): (k: nat)
    ensures k <= |s|
  {
    if s == [] then 0 else if s[0] == '-' then 0 else 1 + DashIndex(s[1..])
  }

  lemma {:induction false} DashIndexAfterDigits(a: string, b: string)
    requires IsDigits(a)
    ensures DashIndex(a + "-" + b) == |a|
    decreases |a|
  {
    if a != [] {
      assert (a + "-" + b)[1..] == a[1..] + "-" + b;
      DashIndexAfterDigits(a[1..], b);
    }
  }

  /** Splitting at the first dash: a digit-only head is recovered from a
      head + "-" + tail string, and so is the tail. */
  lemma SplitAtDash(a: string, b: string, c: string, d: string)
    requires IsDigits(a) && IsDigits(c)
    requires a + "-" + b == c + "-" + d
    ensures a == c && b == d
  {
    var s := a + "-" + b;
    DashIndexAfterDigits(a, b);
    DashIndexAfterDigits(c, d);
    assert a == s[..|a|] == c;
    assert b == s[|a| + 1..] == d;
  }

  lemma DropPrefix(p: string, x: string, y: string)
    requires p + x == p + y
    ensures x == y
  {
    assert x == (p + x)[|p|..];
    assert y == (p + y)[|p|..];
  }

  lemma FormatIdShape(year: nat, n: nat)
    ensures FormatId(year, n) == ID_PREFIX + (Decimal(year) + "-" + SeqText(n))
  {
    FormatIdText(year, n);
    var a, b := Decimal(year), SeqText(n);
    assert ID_PREFIX + a + "-" + b == ID_PREFIX + (a + "-" + b);
  }

  /** Different (year, sequence number) pairs never render to the same ID. */
  lemma FormatIdInjective(y1: nat, n1: nat, y2: nat, n2: nat)
    requires FormatId(y1, n1) == FormatId(y2, n2)
    ensures y1 == y2 && n1 == n2
  {
    var a, c := Decimal(y1), Decimal(y2);
    var b, d := SeqText(n1), SeqText(n2);
    FormatIdShape(y1, n1);
    FormatIdShape(y2, n2);
    DropPrefix(ID_PREFIX, a + "-" + b, c + "-" + d);
    SplitAtDash(a, b, c, d);
    DecimalInjective(y1, y2);
  }

  /** The contrapositive: IDs of different years, or of different numbers
      in one year, differ. */
  lemma FormatIdDistinct(y1: nat, n1: nat, y2: nat, n2: nat)
    requires y1 != y2 || n1 != n2
    ensures FormatId(y1, n1) != FormatId(y2, n2)
  {
    if FormatId(y1, n1) == FormatId(y2, n2) {
      FormatIdInjective(y1, n1, y2, n2);
    }
  }

  /** Padding to three digits: 1 gives "001", 42 gives "042", and 1234,
      already four digits long, is left alone. */
  lemma SeqTextExample()
    ensures SeqText(1) == "001" && SeqText(42) == "042" && SeqText(1234) == "1234"
  {
    assert Decimal(1) == "1";
    assert Decimal(42) == "42";
    assert Decimal(1234) == "1234";
  }

  lemma YearPrefixExample()
    ensures YearPrefix(2025) == "PRED-2025"
  {
    assert Decimal(2025) == "2025";
  }

  lemma LiteralConcatenations()
    ensures "PRED-2025" + "-" + "001" == "PRED-2025-001"
    ensures "PRED-2025" + "-" + "042" == "PRED-2025-042"
    ensures "PRED-2025" + "-" + "1234" == "PRED-2025-1234"
  {
  }

  /** Year 2025 with the numbers 1, 42 and 1234. */
  lemma FormatIdExample()
    ensures FormatId(2025, 1) == "PRED-2025-001"
    ensures FormatId(2025, 42) == "PRED-2025-042"
    ensures FormatId(2025, 1234) == "PRED-2025-1234"
  {
    SeqTextExample();
    YearPrefixExample();
    LiteralConcatenations();
    FormatIdText(2025, 1);
    FormatIdText(2025, 42);
    FormatIdText(2025, 1234);
  }
}
