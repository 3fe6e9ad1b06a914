/** Strings as sequences of Unicode scalar values: decimal numerals, code-point
    order, and the duplicate-free sorted listing of a set of keys. */
module Text {

  // ---------- Decimal numerals ----------

  predicate IsDigit(c: char) {
    '0' <= c <= '9'
  }

  function DigitChar(d: nat): char
    requires d < 10
  {
    ('0' as int + d) as char
  }

  function DigitValue(c: char): nat
    requires IsDigit(c)
  {
    c as int - '0' as int
  }

  predicate AllDigits(s: string) {
    forall i | 0 <= i < |s| :: IsDigit(s[i])
  }

  /** Python's `str(n)` for a non-negative integer. */
  function Decimal(n: nat): (s: string)
    ensures |s| > 0 && AllDigits(s)
    ensures n > 0 ==> s[0] != '0'
    ensures n == 0 ==> s == "0"
  {
    if n < 10 then [DigitChar(n)] else Decimal(n / 10) + [DigitChar(n % 10)]
  }

  /** The number a string of digits denotes; leading zeros are tolerated. */
  function Numeral(s: string): nat
    requires AllDigits(s)
  {
    if |s| == 0 then 0 else Numeral(s[..|s| - 1]) * 10 + DigitValue(s[|s| - 1])
  }

  lemma {:induction false} DecimalRoundTrip(n: nat)
    ensures Numeral(Decimal(n)) == n
  {
    if n < 10 {
      assert Decimal(n)[..0] == "";
    } else {
      DecimalRoundTrip(n / 10);
      assert Decimal(n)[..|Decimal(n)| - 1] == Decimal(n / 10);
    }
  }

  /** A number below the given power of ten prints in that many digits. */
  lemma {:induction false} DecimalLength(n: nat, digits: nat, bound: nat)
    requires digits > 0 && bound == PowerOfTen(digits) && n < bound
    ensures |Decimal(n)| <= digits
  {
    if n >= 10 {
      if digits == 1 {
        TenToTheOne();
        assert false;
      }
      assert bound == 10 * PowerOfTen(digits - 1);
      DecimalLength(n / 10, digits - 1, PowerOfTen(digits - 1));
    }
  }

  lemma TenToTheOne()
    ensures PowerOfTen(1) == 10
  {
    assert PowerOfTen(0) == 1;
  }

  function PowerOfTen(e: nat): nat {
    if e == 0 then 1 else 10 * PowerOfTen(e - 1)
  }

  // ---------- Code-point order ----------

  /** Strict lexicographic order by code point, as Python compares `str`. */
  predicate Less(a: string, b: string) {
    |b| > 0 && (|a| == 0 || a[0] < b[0] || (a[0] == b[0] && Less(a[1..], b[1..])))
  }

  lemma {:induction false} LessTransitive(a: string, b: string, c: string)
    requires Less(a, b) && Less(b, c)
    ensures Less(a, c)
  {
    if |a| > 0 && a[0] == b[0] == c[0] {
      LessTransitive(a[1..], b[1..], c[1..]);
    }
  }

  lemma {:induction false} LessTrichotomy(a: string, b: string)
    ensures a == b ==> !Less(a, b)
    ensures a != b ==> Less(a, b) != Less(b, a)
  {
    if |a| > 0 && |b| > 0 && a[0] == b[0] {
      LessTrichotomy(a[1..], b[1..]);
      assert a == [a[0]] + a[1..] && b == [b[0]] + b[1..];
    }
  }

  // ---------- Sorted keys ----------

  predicate IsLeast(k: string, s: set<string>) {
    k in s && forall j | j in s && j != k :: Less(k, j)
  }

  lemma {:induction false} LeastExists(s: set<string>)
    requires s != {}
    ensures exists k :: IsLeast(k, s)
  {
    var x :| x in s;
    var rest := s - {x};
    if rest == {} {
      assert s == {x};
      assert IsLeast(x, s);
    } else {
      LeastExists(rest);
      var y :| IsLeast(y, rest);
      LessTrichotomy(x, y);
      if Less(x, y) {
        forall j | j in s && j != x ensures Less(x, j) {
          if j != y { LessTransitive(x, y, j); }
        }
        assert IsLeast(x, s);
      } else {
        assert IsLeast(y, s);
      }
    }
  }

  lemma LeastUnique(s: set<string>, j: string, k: string)
    requires IsLeast(j, s) && IsLeast(k, s)
    ensures j == k
  {
    LessTrichotomy(j, k);
  }

  function Least(s: set<string>): (k: string)
    requires s != {}
    ensures IsLeast(k, s)
  {
    LeastExists(s);
    assert forall i, j | IsLeast(i, s) && IsLeast(j, s) :: i == j by {
      forall i, j | IsLeast(i, s) && IsLeast(j, s) ensures i == j {
        LeastUnique(s, i, j);
      }
    }
    var k :| k in s && IsLeast(k, s);
    k
  }

  /** The elements of `s` in increasing order. */
  function SortedKeys(s: set<string>): (ks: seq<string>)
    ensures forall k :: k in ks <==> k in s
    ensures |ks| == |s|
  {
    if s == {} then [] else [Least(s)] + SortedKeys(s - {Least(s)})
  }

  predicate StrictlySorted(ks: seq<string>) {
    forall i, j | 0 <= i < j < |ks| :: Less(ks[i], ks[j])
  }

  function Elements(ks: seq<string>): set<string> {
    set k | k in ks
  }

  lemma SortedHead(ks: seq<string>)
    requires StrictlySorted(ks) && |ks| > 0
    ensures IsLeast(ks[0], Elements(ks))
    ensures Elements(ks) - {ks[0]} == Elements(ks[1..])
  {
    forall k | k in Elements(ks) && k != ks[0] ensures Less(ks[0], k) {
      var i :| 0 <= i < |ks| && ks[i] == k;
    }
    forall k | k in ks[1..] ensures k != ks[0] {
      var i :| 1 <= i < |ks| && ks[i] == k;
      assert Less(ks[0], ks[i]);
      LessTrichotomy(ks[0], k);
    }
    assert ks == [ks[0]] + ks[1..];
  }

  /** Any strictly increasing listing of a set is the listing `SortedKeys` gives,
      so the order in which a mapping was filled cannot show in sorted output. */
  lemma {:induction false} SortedListingUnique(ks: seq<string>)
    requires StrictlySorted(ks)
    ensures ks == SortedKeys(Elements(ks))
  {
    if |ks| > 0 {
      SortedHead(ks);
      LeastUnique(Elements(ks), ks[0], Least(Elements(ks)));
      SortedListingUnique(ks[1..]);
    }
  }

  // ---------- Insertion sort of a listing ----------

  function InsertKey(k: string, ks: seq<string>): seq<string> {
    if |ks| == 0 || Less(k, ks[0]) then [k] + ks else [ks[0]] + InsertKey(k, ks[1..])
  }

  /** What `sorted` does with the keys of a dictionary, in insertion order. */
  function SortKeys(ks: seq<string>): seq<string> {
    if |ks| == 0 then [] else InsertKey(ks[0], SortKeys(ks[1..]))
  }

  lemma {:induction false} InsertKeySorted(k: string, ks: seq<string>)
    requires StrictlySorted(ks) && k !in ks
    ensures StrictlySorted(InsertKey(k, ks))
    ensures forall j :: j in InsertKey(k, ks) <==> j == k || j in ks
  {
    if |ks| == 0 {
    } else if Less(k, ks[0]) {
      forall j | j in ks ensures Less(k, j) {
        if j != ks[0] { LessTransitive(k, ks[0], j); }
      }
    } else {
      LessTrichotomy(k, ks[0]);
      InsertKeySorted(k, ks[1..]);
      assert forall j | j in ks[1..] :: Less(ks[0], j);
      assert forall j :: j in ks <==> j == ks[0] || j in ks[1..];
    }
  }

  predicate Distinct(ks: seq<string>) {
    forall i, j | 0 <= i < j < |ks| :: ks[i] != ks[j]
  }

  /** Whatever order the keys were inserted in, sorting them gives the same listing. */
  lemma {:induction false} SortKeysCanonical(ks: seq<string>)
    requires Distinct(ks)
    ensures SortKeys(ks) == SortedKeys(Elements(ks))
  {
    SortKeysSorted(ks);
    SortedListingUnique(SortKeys(ks));
    assert Elements(SortKeys(ks)) == Elements(ks);
  }

  lemma {:induction false} SortKeysSorted(ks: seq<string>)
    requires Distinct(ks)
    ensures StrictlySorted(SortKeys(ks))
    ensures forall k :: k in SortKeys(ks) <==> k in ks
  {
    if |ks| > 0 {
      SortKeysSorted(ks[1..]);
      InsertKeySorted(ks[0], SortKeys(ks[1..]));
      assert forall k :: k in ks <==> k == ks[0] || k in ks[1..];
    }
  }
}
