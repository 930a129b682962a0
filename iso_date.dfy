/**
 * Dates are stored as ISO 8601 calendar dates in the complete extended form
 * YYYY-MM-DD (section 4.1.2.2 of ISO 8601:2004) and the listing orders them as
 * TEXT. For dates of that form, text order is chronological order.
 */
module IsoDate {
  import LedgerDb

  predicate IsDigit(c: char) {
    '0' <= c <= '9'
  }

  predicate AllDigits(s: string) {
    forall i :: 0 <= i < |s| ==> IsDigit(s[i])
  }

  function Pow10(n: nat): (r: nat)
    ensures r >= 1
  {
    if n == 0 then 1 else 10 * Pow10(n - 1)
  }

  /** The number a string of decimal digits spells, most significant digit first. */
  function Value(s: string): nat
    requires AllDigits(s)
  {
    if s == [] then 0 else (s[0] as int - '0' as int) * Pow10(|s| - 1) + Value(s[1..])
  }

  lemma {:induction false} ValueBound(s: string)
    requires AllDigits(s)
    ensures Value(s) < Pow10(|s|)
  {
    if s != [] {
      ValueBound(s[1..]);
      var d := s[0] as int - '0' as int;
      var p := Pow10(|s| - 1);
      assert d * p <= 9 * p by {
        assert d <= 9;
      }
    }
  }

  /** A smaller leading digit outweighs whatever the lower digits hold. */
  lemma LeadingDigitDecides(da: int, db: int, ra: int, rb: int, p: int)
    requires 0 <= da < db && 0 <= ra < p && 0 <= rb
    ensures da * p + ra < db * p + rb
  {
    assert (da + 1) * p == da * p + p;
    assert (da + 1) * p <= db * p by {
      assert db * p - (da + 1) * p == (db - da - 1) * p;
    }
  }

  /** Digit strings of one length compare as text exactly as their values compare. */
  lemma {:induction false} DigitTextOrder(a: string, b: string)
    requires AllDigits(a) && AllDigits(b) && |a| == |b|
    ensures LedgerDb.TextLess(a, b) <==> Value(a) < Value(b)
  {
    if a != [] {
      var p := Pow10(|a| - 1);
      var da, db := a[0] as int - '0' as int, b[0] as int - '0' as int;
      var ra, rb := Value(a[1..]), Value(b[1..]);
      assert Value(a) == da * p + ra && Value(b) == db * p + rb;
      ValueBound(a[1..]);
      ValueBound(b[1..]);
      if da < db {
        LeadingDigitDecides(da, db, ra, rb, p);
      } else if db < da {
        LeadingDigitDecides(db, da, rb, ra, p);
      } else {
        DigitTextOrder(a[1..], b[1..]);
      }
    }
  }

  /** Comparing two texts split at the same length: the first parts decide unless they are equal. */
  lemma {:induction false} TextLessConcat(p: string, q: string, p': string, q': string)
    requires |p| == |p'|
    ensures LedgerDb.TextLess(p + q, p' + q') <==>
      LedgerDb.TextLess(p, p') || (p == p' && LedgerDb.TextLess(q, q'))
  {
    if p == [] {
      assert p + q == q && p' + q' == q';
    } else {
      assert (p + q)[0] == p[0] && (p' + q')[0] == p'[0];
      assert (p + q)[1..] == p[1..] + q && (p' + q')[1..] == p'[1..] + q';
      TextLessConcat(p[1..], q, p'[1..], q');
      if p[0] == p'[0] {
        assert p == p' <==> p[1..] == p'[1..] by {
          assert p == [p[0]] + p[1..] && p' == [p'[0]] + p'[1..];
        }
      }
    }
  }

  /** `s` has the form YYYY-MM-DD. */
  predicate IsIsoDate(s: string) {
    |s| == 10 && s[4] == '-' && s[7] == '-'
    && AllDigits(s[..4]) && AllDigits(s[5..7]) && AllDigits(s[8..])
  }

  function Year(s: string): nat
    requires IsIsoDate(s)
  {
    Value(s[..4])
  }

  function Month(s: string): nat
    requires IsIsoDate(s)
  {
    Value(s[5..7])
  }

  function Day(s: string): nat
    requires IsIsoDate(s)
  {
    Value(s[8..])
  }

  /** `a` is a day before `b` on the calendar. */
  predicate Earlier(a: string, b: string)
    requires IsIsoDate(a) && IsIsoDate(b)
  {
    Year(a) < Year(b)
    || (Year(a) == Year(b) && Month(a) < Month(b))
    || (Year(a) == Year(b) && Month(a) == Month(b) && Day(a) < Day(b))
  }

  /** Equal values of equal-length digit strings mean equal strings. */
  lemma DigitsEqual(a: string, b: string)
    requires AllDigits(a) && AllDigits(b) && |a| == |b|
    ensures a == b <==> Value(a) == Value(b)
  {
    DigitTextOrder(a, b);
    DigitTextOrder(b, a);
    LedgerDb.TextLessTrichotomy(a, b);
  }

  /** Two fields and a separator: the text order of `x + [c] + y` against `x' + [c] + y'`. */
  lemma FieldThenRest(x: string, y: string, x': string, y': string, c: char)
    requires |x| == |x'|
    ensures LedgerDb.TextLess(x + [c] + y, x' + [c] + y') <==>
      LedgerDb.TextLess(x, x') || (x == x' && LedgerDb.TextLess(y, y'))
  {
    assert x + [c] + y == x + ([c] + y) && x' + [c] + y' == x' + ([c] + y');
    TextLessConcat(x, [c] + y, x', [c] + y');
    TextLessConcat([c], y, [c], y');
  }

  /**
   * For YYYY-MM-DD dates, SQLite's text order is calendar order, so
   * `ORDER BY date DESC` lists later days first.
   */
  lemma IsoDateOrder(a: string, b: string)
    requires IsIsoDate(a) && IsIsoDate(b)
    ensures LedgerDb.TextLess(a, b) <==> Earlier(a, b)
  {
    assert a == a[..4] + [a[4]] + (a[5..7] + [a[7]] + a[8..]);
    assert b == b[..4] + [b[4]] + (b[5..7] + [b[7]] + b[8..]);
    FieldThenRest(a[..4], a[5..7] + [a[7]] + a[8..], b[..4], b[5..7] + [b[7]] + b[8..], '-');
    FieldThenRest(a[5..7], a[8..], b[5..7], b[8..], '-');
    DigitTextOrder(a[..4], b[..4]);
    DigitTextOrder(a[5..7], b[5..7]);
    DigitTextOrder(a[8..], b[8..]);
    DigitsEqual(a[..4], b[..4]);
    DigitsEqual(a[5..7], b[5..7]);
  }
}
