/**
 * The order `Array.prototype.sort()` uses when it is given no comparator:
 * elements are compared by their string forms, code unit by code unit.
 * The search sorts the bedroom counts of a listing's units this way and
 * reads the last element, so that element is a string-order maximum.
 */
module StringOrder {
  import opened JsNumbers

  /** `a <= b` in lexicographic order on characters. */
  predicate StrLe(a: string, b: string)
    decreases |a|
  {
    |a| == 0 || (|b| > 0 && (a[0] < b[0] || (a[0] == b[0] && StrLe(a[1..], b[1..]))))
  }

  lemma {:induction false} StrLeReflexive(a: string)
    ensures StrLe(a, a)
    decreases |a|
  {
    if |a| > 0 {
      StrLeReflexive(a[1..]);
    }
  }

  lemma {:induction false} StrLeTotal(a: string, b: string)
    ensures StrLe(a, b) || StrLe(b, a)
    decreases |a|
  {
    if |a| > 0 && |b| > 0 && a[0] == b[0] {
      StrLeTotal(a[1..], b[1..]);
    }
  }

  lemma {:induction false} StrLeTransitive(a: string, b: string, c: string)
    requires StrLe(a, b) && StrLe(b, c)
    ensures StrLe(a, c)
    decreases |a|
  {
    if |a| > 0 && a[0] == b[0] && b[0] == c[0] {
      StrLeTransitive(a[1..], b[1..], c[1..]);
    }
  }

  lemma {:induction false} StrLeAntisymmetric(a: string, b: string)
    requires StrLe(a, b) && StrLe(b, a)
    ensures a == b
    decreases |a|
  {
    if |a| > 0 {
      StrLeAntisymmetric(a[1..], b[1..]);
      assert a == [a[0]] + a[1..] && b == [b[0]] + b[1..];
    }
  }

  /** Different integers have different string forms. */
  lemma IntToStringInjective(x: int, y: int)
    requires IntToString(x) == IntToString(y)
    ensures x == y
  {
    ParseIntOfIntToString(x);
    ParseIntOfIntToString(y);
  }

  /** The last element of a list of numbers after the default sort. */
  function SortedLast(xs: seq<int>): (r: int)
    requires |xs| > 0
    ensures r in xs
    ensures forall x :: x in xs ==> StrLe(IntToString(x), IntToString(r))
  {
    StrLeReflexive(IntToString(xs[0]));
    if |xs| == 1 then xs[0]
    else
      var m := SortedLast(xs[1..]);
      StrLeTotal(IntToString(xs[0]), IntToString(m));
      if StrLe(IntToString(xs[0]), IntToString(m)) then m
      else
        assert forall x :: x in xs[1..] ==> StrLe(IntToString(x), IntToString(xs[0])) by {
          forall x | x in xs[1..]
            ensures StrLe(IntToString(x), IntToString(xs[0]))
          {
            StrLeTransitive(IntToString(x), IntToString(m), IntToString(xs[0]));
          }
        }
        assert xs == [xs[0]] + xs[1..];
        xs[0]
  }

  /** Any element that is a string-order maximum is the value `SortedLast` picks,
      so the last element of the sorted list does not depend on how ties are broken. */
  lemma SortedLastIsTheMaximum(xs: seq<int>, y: int)
    requires y in xs
    requires forall x :: x in xs ==> StrLe(IntToString(x), IntToString(y))
    ensures SortedLast(xs) == y
  {
    var r := SortedLast(xs);
    StrLeAntisymmetric(IntToString(r), IntToString(y));
    IntToStringInjective(r, y);
  }

  /** Between single digits, string order is numeric order. */
  lemma SingleDigitOrder(x: int, y: int)
    requires 0 <= x <= 9 && 0 <= y <= 9
    ensures StrLe(IntToString(x), IntToString(y)) <==> x <= y
  {
    assert IntToString(x) == [DigitChar(x)];
    assert IntToString(y) == [DigitChar(y)];
  }

  /** When every count is a single digit, the last sorted element is the numeric maximum. */
  lemma SortedLastOfDigits(xs: seq<int>)
    requires |xs| > 0
    requires forall x :: x in xs ==> 0 <= x <= 9
    ensures forall x :: x in xs ==> x <= SortedLast(xs)
  {
    var r := SortedLast(xs);
    forall x | x in xs
      ensures x <= r
    {
      SingleDigitOrder(x, r);
    }
  }

  /** With two digits the order breaks: "10" sorts before "2". */
  lemma TenSortsBeforeTwo()
    ensures SortedLast([2, 10]) == 2
  {
    assert IntToString(10) == "10" by {
      assert DecimalString(1) == "1";
      assert DecimalString(10) == DecimalString(1) + [DigitChar(0)];
    }
    assert IntToString(2) == "2";
    assert !StrLe("2", "10");
    assert SortedLast([2, 10][1..]) == 10;
  }
}
