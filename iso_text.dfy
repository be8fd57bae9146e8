/**
 * The text forms the ledger stores and compares: `YYYY-MM-DD` dates
 * (`toISOString().slice(0, 10)`), `YYYY-MM` month keys (`getMonthKey` and
 * SQLite's `strftime('%Y-%m', ...)`), and the autopay source key
 * `autopay:<planId>:<date>` (src/lib/database.ts:390, 409).
 */
module IsoText {
  import opened Types
  import opened Calendar

  function Digit(n: int): (c: char)
    requires 0 <= n <= 9
    ensures '0' <= c <= '9'
  {
    ('0' as int + n) as char
  }

  function Pad2(n: int): (s: string)
    requires 0 <= n <= 99
    ensures |s| == 2
  {
    [Digit(n / 10), Digit(n % 10)]
  }

  function Pad4(n: int): (s: string)
    requires 0 <= n <= 9999
    ensures |s| == 4
  {
    Pad2(n / 100) + Pad2(n % 100)
  }

  /** A date as `YYYY-MM-DD`, for the four-digit years `toISOString` writes that way. */
  function Iso(d: Date): (s: string)
    requires d.year <= 9999
    ensures |s| == 10
  {
    Pad4(d.year) + ("-" + (Pad2(d.month) + ("-" + Pad2(d.day))))
  }

  /** The decimal text of a natural number, as a template literal writes it. */
  function NatText(n: nat): (s: string)
    ensures |s| >= 1
    ensures forall i :: 0 <= i < |s| ==> '0' <= s[i] <= '9'
  {
    if n < 10 then [Digit(n)] else NatText(n / 10) + [Digit(n % 10)]
  }

  /** `getMonthKey`: the year as written (not padded), a dash, the month padded to two digits. */
  function MonthKey(ym: Month): (s: string)
    requires ym.year >= 0
    ensures |s| >= 4 && s[|s| - 3] == '-'
  {
    NatText(ym.year) + "-" + Pad2(ym.month)
  }

  /** The source key of the autopay occurrence of plan `planId` on date `d`. */
  function AutopayKey(planId: nat, d: Date): (k: string)
    requires d.year <= 9999
    ensures |k| >= 19 && k[..8] == "autopay:"
  {
    "autopay:" + NatText(planId) + ":" + Iso(d)
  }

  // ---------------------------------------------------------------------------
  // Lexicographic order of text

  /** Text order as SQLite and JavaScript compare strings (code unit by code unit). */
  predicate LexLe(a: string, b: string) {
    if a == [] then true
    else if b == [] then false
    else a[0] < b[0] || (a[0] == b[0] && LexLe(a[1..], b[1..]))
  }

  lemma {:induction false} LexLeReflexive(a: string)
    ensures LexLe(a, a)
  {
    if a != [] {
      LexLeReflexive(a[1..]);
    }
  }

  /** Comparing two texts whose first parts have the same length: the first parts decide unless equal. */
  lemma {:induction false} LexLeConcat(a1: string, b1: string, a2: string, b2: string)
    requires |a1| == |a2|
    ensures LexLe(a1 + b1, a2 + b2) == if a1 == a2 then LexLe(b1, b2) else LexLe(a1, a2)
  {
    if a1 != [] {
      assert (a1 + b1)[0] == a1[0] && (a2 + b2)[0] == a2[0];
      assert (a1 + b1)[1..] == a1[1..] + b1;
      assert (a2 + b2)[1..] == a2[1..] + b2;
      LexLeConcat(a1[1..], b1, a2[1..], b2);
      if a1[0] == a2[0] {
        assert a1 == a2 <==> a1[1..] == a2[1..] by {
          if a1[1..] == a2[1..] {
            assert a1 == [a1[0]] + a1[1..];
            assert a2 == [a2[0]] + a2[1..];
          }
        }
      }
    } else {
      assert a1 + b1 == b1 && a2 + b2 == b2;
    }
  }

  lemma DigitOrder(x: int, y: int)
    requires 0 <= x <= 9 && 0 <= y <= 9
    ensures LexLe([Digit(x)], [Digit(y)]) <==> x <= y
    ensures Digit(x) == Digit(y) <==> x == y
  {
    assert [Digit(x)][1..] == [];
  }

  lemma Pad2Order(x: int, y: int)
    requires 0 <= x <= 99 && 0 <= y <= 99
    ensures LexLe(Pad2(x), Pad2(y)) <==> x <= y
    ensures Pad2(x) == Pad2(y) <==> x == y
  {
    assert Pad2(x) == [Digit(x / 10)] + [Digit(x % 10)];
    assert Pad2(y) == [Digit(y / 10)] + [Digit(y % 10)];
    LexLeConcat([Digit(x / 10)], [Digit(x % 10)], [Digit(y / 10)], [Digit(y % 10)]);
    DigitOrder(x / 10, y / 10);
    DigitOrder(x % 10, y % 10);
  }

  lemma Pad4Order(x: int, y: int)
    requires 0 <= x <= 9999 && 0 <= y <= 9999
    ensures LexLe(Pad4(x), Pad4(y)) <==> x <= y
    ensures Pad4(x) == Pad4(y) <==> x == y
  {
    LexLeConcat(Pad2(x / 100), Pad2(x % 100), Pad2(y / 100), Pad2(y % 100));
    Pad2Order(x / 100, y / 100);
    Pad2Order(x % 100, y % 100);
    if Pad4(x) == Pad4(y) {
      assert Pad4(x)[..2] == Pad2(x / 100) && Pad4(y)[..2] == Pad2(y / 100);
      assert Pad4(x)[2..] == Pad2(x % 100) && Pad4(y)[2..] == Pad2(y % 100);
    }
  }

  /**
   * The comparison `dueDate <= today` on `YYYY-MM-DD` text (src/lib/database.ts:408)
   * is the calendar order of the dates, so the model may compare dates as values.
   */
  lemma IsoOrderIsDateOrder(a: Date, b: Date)
    requires a.year <= 9999 && b.year <= 9999
    ensures LexLe(Iso(a), Iso(b)) <==> DateLe(a, b)
  {
    var ra := Pad2(a.month) + ("-" + Pad2(a.day));
    var rb := Pad2(b.month) + ("-" + Pad2(b.day));
    LexLeConcat(Pad4(a.year), "-" + ra, Pad4(b.year), "-" + rb);
    LexLeConcat("-", ra, "-", rb);
    LexLeConcat(Pad2(a.month), "-" + Pad2(a.day), Pad2(b.month), "-" + Pad2(b.day));
    LexLeConcat("-", Pad2(a.day), "-", Pad2(b.day));
    Pad4Order(a.year, b.year);
    Pad2Order(a.month, b.month);
    Pad2Order(a.day, b.day);
  }

  lemma IsoInjective(a: Date, b: Date)
    requires a.year <= 9999 && b.year <= 9999
    ensures Iso(a) == Iso(b) <==> a == b
  {
    if Iso(a) == Iso(b) {
      LexLeReflexive(Iso(a));
      IsoOrderIsDateOrder(a, b);
      IsoOrderIsDateOrder(b, a);
    }
  }

  lemma {:induction false} NatTextInjective(m: nat, n: nat)
    ensures NatText(m) == NatText(n) <==> m == n
  {
    if NatText(m) == NatText(n) && m != n {
      var s := NatText(m);
      if m < 10 && n < 10 {
        DigitOrder(m, n);
      } else if m >= 10 && n >= 10 {
        assert s[|s| - 1] == Digit(m % 10) && s[|s| - 1] == Digit(n % 10);
        DigitOrder(m % 10, n % 10);
        assert s[..|s| - 1] == NatText(m / 10);
        assert s[..|s| - 1] == NatText(n / 10);
        NatTextInjective(m / 10, n / 10);
      }
    }
  }

  /** Distinct (plan, date) pairs have distinct source keys, so the key check is per occurrence. */
  lemma AutopayKeyInjective(id1: nat, d1: Date, id2: nat, d2: Date)
    requires d1.year <= 9999 && d2.year <= 9999
    ensures AutopayKey(id1, d1) == AutopayKey(id2, d2) <==> id1 == id2 && d1 == d2
  {
    var k1, k2 := AutopayKey(id1, d1), AutopayKey(id2, d2);
    if k1 == k2 {
      var n1, n2 := NatText(id1), NatText(id2);
      assert |n1| == |n2|;
      assert k1[8..8 + |n1|] == n1;
      assert k2[8..8 + |n2|] == n2;
      assert k1[|k1| - 10..] == Iso(d1);
      assert k2[|k2| - 10..] == Iso(d2);
      NatTextInjective(id1, id2);
      IsoInjective(d1, d2);
    }
  }

  /** A two-digit number is written the same with or without padding. */
  lemma NatTextTwoDigits(m: nat)
    requires 10 <= m <= 99
    ensures NatText(m) == Pad2(m)
  {
    assert NatText(m / 10) == [Digit(m / 10)];
  }

  /** A three-digit number is its first two digits, padded, then its last digit. */
  lemma NatTextThreeDigits(m: nat)
    requires 100 <= m <= 999
    ensures NatText(m) == Pad2(m / 10) + [Digit(m % 10)]
  {
    NatTextTwoDigits(m / 10);
  }

  /** A four-digit year is written the same with or without padding. */
  lemma NatTextFourDigits(n: nat)
    requires 1000 <= n <= 9999
    ensures NatText(n) == Pad4(n)
  {
    NatTextThreeDigits(n / 10);
    assert (n / 10) / 10 == n / 100;
    assert (n % 100) / 10 == (n / 10) % 10 && (n % 100) % 10 == n % 10;
    assert Pad2(n % 100) == [Digit((n / 10) % 10), Digit(n % 10)];
  }

  /**
   * For four-digit years `strftime('%Y-%m', entry_date)` yields the `getMonthKey` of
   * the entry's month, so matching on the text is matching on the month.
   */
  lemma StrftimeIsMonthKey(d: Date)
    requires 1000 <= d.year <= 9999
    ensures Iso(d)[..7] == MonthKey(MonthOf(d))
  {
    NatTextFourDigits(d.year);
  }

  /** Month keys of different months differ. */
  lemma MonthKeyInjective(a: Month, b: Month)
    requires a.year >= 0 && b.year >= 0
    ensures MonthKey(a) == MonthKey(b) <==> a == b
  {
    var ka, kb := MonthKey(a), MonthKey(b);
    if ka == kb {
      assert ka[..|ka| - 3] == NatText(a.year);
      assert kb[..|kb| - 3] == NatText(b.year);
      assert ka[|ka| - 2..] == Pad2(a.month);
      assert kb[|kb| - 2..] == Pad2(b.month);
      NatTextInjective(a.year, b.year);
      Pad2Order(a.month, b.month);
    }
  }
}
