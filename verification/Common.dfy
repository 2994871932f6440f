/** Shared vocabulary: optional values, results, and a few facts about sequences and decimal numerals. */
module Common {

  datatype Option<+T> = None | Some(value: T)

  datatype Result<+T, +E> = Ok(value: T) | Err(error: E)

  ghost predicate Distinct<T>(s: seq<T>) {
    forall i, j :: 0 <= i < j < |s| ==> s[i] != s[j]
  }

  function Elements<T>(s: seq<T>): set<T> {
    set x | x in s
  }

  function Last<T>(s: seq<T>): T
    requires s != []
  {
    s[|s| - 1]
  }

  function Init<T>(s: seq<T>): seq<T>
    requires s != []
  {
    s[..|s| - 1]
  }

  /** A sequence without repetitions that stays inside a finite set is no longer than the set. */
  lemma {:induction false} DistinctFits<T>(s: seq<T>, bound: set<T>)
    requires Distinct(s)
    requires forall x :: x in s ==> x in bound
    ensures |s| <= |bound|
  {
    if s != [] {
      DistinctFits(Init(s), bound - {Last(s)});
    }
  }

  /** Where in a sequence something holds. */
  function Positions<T>(s: seq<T>, holds: T -> bool): set<int> {
    set i | 0 <= i < |s| && holds(s[i])
  }

  lemma PositionsGrow<T>(s: seq<T>, holds: T -> bool)
    ensures s == [] ==> Positions(s, holds) == {}
    ensures s != [] ==> |Positions(s, holds)| == |Positions(Init(s), holds)| + if holds(Last(s)) then 1 else 0
  {
    if s != [] {
      var k, before := |s| - 1, Positions(Init(s), holds);
      assert Positions(s, holds) == if holds(Last(s)) then before + {k} else before;
    }
  }

  /** `String(n)` for a non-negative integer. */
  function Decimal(n: nat): (r: string)
    ensures r != []
    ensures forall c :: c in r ==> '0' <= c <= '9'
  {
    if n < 10 then [Digit(n)] else Decimal(n / 10) + [Digit(n % 10)]
  }

  function Digit(d: nat): (c: char)
    requires d < 10
    ensures '0' <= c <= '9'
  {
    '0' + d as char
  }

  lemma DigitInjective(a: nat, b: nat)
    requires a < 10 && b < 10 && Digit(a) == Digit(b)
    ensures a == b
  {
    assert Digit(a) as int == '0' as int + a;
    assert Digit(b) as int == '0' as int + b;
  }

  lemma DecimalLength(n: nat)
    ensures |Decimal(n)| == 1 <==> n < 10
  {
    if n >= 10 {
      assert |Decimal(n)| == |Decimal(n / 10)| + 1;
    }
  }

  lemma {:induction false} DecimalInjective(a: nat, b: nat)
    requires Decimal(a) == Decimal(b)
    ensures a == b
  {
    var da, db := Decimal(a), Decimal(b);
    if a < 10 && b < 10 {
      assert da[0] == db[0];
      DigitInjective(a, b);
    } else if a < 10 || b < 10 {
      DecimalLength(a);
      DecimalLength(b);
    } else {
      assert Init(da) == Decimal(a / 10) && Init(db) == Decimal(b / 10);
      assert Last(da) == Digit(a % 10) && Last(db) == Digit(b % 10);
      DecimalInjective(a / 10, b / 10);
      DigitInjective(a % 10, b % 10);
    }
  }
}
