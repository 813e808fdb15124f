/**
 Timestamps as the catalog stores and compares them: ISO 8601 text, compared character by character.

 Zero microseconds are left out of the text, so texts differ in length. Section 5.1 of RFC 3339
 promises that text order is time order only for equal fraction lengths; the lemmas below show it
 for these texts too.
 */
module IsoTime {

  /******* Text order *******/

  predicate LexLess(s: string, t: string) {
    if t == [] then false
    else if s == [] then true
    else s[0] < t[0] || (s[0] == t[0] && LexLess(s[1..], t[1..]))
  }

  lemma {:induction false} LexPrefix(p: string, s: string, t: string)
    ensures LexLess(p + s, p + t) <==> LexLess(s, t)
  {
    if p == [] {
      assert p + s == s && p + t == t;
    } else {
      LexPrefix(p[1..], s, t);
      assert (p + s)[1..] == p[1..] + s && (p + t)[1..] == p[1..] + t;
    }
  }

  lemma {:induction false} LexTotal(s: string, t: string)
    ensures s == t || LexLess(s, t) || LexLess(t, s)
    ensures !(LexLess(s, t) && LexLess(t, s)) && !LexLess(s, s)
  {
    if s != [] {
      LexTotal(s[1..], s[1..]);
    }
    if s != [] && t != [] {
      LexTotal(s[1..], t[1..]);
      if s[0] == t[0] && s[1..] == t[1..] {
        assert s == [s[0]] + s[1..] && t == [t[0]] + t[1..];
      }
    }
  }

  lemma {:induction false} LexTransitive(s: string, t: string, u: string)
    requires LexLess(s, t) && LexLess(t, u)
    ensures LexLess(s, u)
  {
    if s != [] && s[0] == t[0] && t[0] == u[0] {
      LexTransitive(s[1..], t[1..], u[1..]);
    }
  }

  /******* Numbers of fixed width *******/

  function Pow10(w: nat): nat {
    if w == 0 then 1 else 10 * Pow10(w - 1)
  }

  function Digit(d: nat): char
    requires d < 10
  {
    '0' + d as char
  }

  function Digits(n: nat, w: nat): (s: string)
    requires n < Pow10(w)
    ensures |s| == w
  {
    if w == 0 then "" else Digits(n / 10, w - 1) + [Digit(n % 10)]
  }

  /** Numbers of one width followed by anything: the numbers decide first. */
  lemma {:induction false} FieldOrder(m: nat, n: nat, w: nat, s: string, t: string)
    requires m < Pow10(w) && n < Pow10(w)
    ensures LexLess(Digits(m, w) + s, Digits(n, w) + t) <==> m < n || (m == n && LexLess(s, t))
  {
    if w == 0 {
      assert Digits(m, w) + s == s && Digits(n, w) + t == t;
    } else {
      var md, nd := [Digit(m % 10)], [Digit(n % 10)];
      FieldOrder(m / 10, n / 10, w - 1, md + s, nd + t);
      assert Digits(m, w) + s == Digits(m / 10, w - 1) + (md + s);
      assert Digits(n, w) + t == Digits(n / 10, w - 1) + (nd + t);
      assert (md + s)[1..] == s && (nd + t)[1..] == t;
    }
  }

  /******* Civil time *******/

  datatype Civil = Civil(year: nat, month: nat, day: nat, hour: nat, minute: nat, second: nat, micro: nat) {
    predicate Valid() {
      && 1 <= year <= 9999 && 1 <= month <= 12 && 1 <= day <= 31
      && hour < 24 && minute < 60 && second < 60 && micro < 1_000_000
    }
  }

  type Instant = c: Civil | c.Valid() witness Civil(1, 1, 1, 0, 0, 0, 0)

  predicate Before(a: Instant, b: Instant) {
    a.year < b.year || (a.year == b.year && (
    a.month < b.month || (a.month == b.month && (
    a.day < b.day || (a.day == b.day && (
    a.hour < b.hour || (a.hour == b.hour && (
    a.minute < b.minute || (a.minute == b.minute && (
    a.second < b.second || (a.second == b.second && a.micro < b.micro)))))))))))
  }

  /** isoformat, with the text of the UTC offset as the caller's zone prints it. */
  function TextIn(a: Instant, offset: string): string {
    PowersOfTen();
    Digits(a.year, 4) + ("-" + (Digits(a.month, 2) + ("-" + (Digits(a.day, 2) + ("T"
    + (Digits(a.hour, 2) + (":" + (Digits(a.minute, 2) + (":" + (Digits(a.second, 2)
    + Fraction(a.micro, offset)))))))))))
  }

  function Fraction(micro: nat, offset: string): string
    requires micro < 1_000_000
  {
    PowersOfTen();
    if micro == 0 then offset else "." + (Digits(micro, 6) + offset)
  }

  const UTC := "+00:00"

  function UtcIso(a: Instant): string {
    TextIn(a, UTC)
  }

  lemma PowersOfTen()
    ensures Pow10(2) == 100 && Pow10(4) == 10_000 && Pow10(6) == 1_000_000
  {
  }

  /** The number a text of digits shows. */
  function Value(s: string): int {
    if s == "" then 0 else 10 * Value(s[..|s| - 1]) + (s[|s| - 1] as int - '0' as int)
  }

  lemma {:induction false} DigitsShow(n: nat, w: nat)
    requires n < Pow10(w)
    ensures Value(Digits(n, w)) == n
  {
    if w > 0 {
      DigitsShow(n / 10, w - 1);
      assert Digits(n, w)[..w - 1] == Digits(n / 10, w - 1);
    }
  }

  /** The text shows every field at its place, so the instant can be read back from it. */
  lemma TextShows(a: Instant, offset: string)
    ensures var s := TextIn(a, offset);
            && |s| >= 19 && s[4] == s[7] == '-' && s[10] == 'T' && s[13] == s[16] == ':'
            && Value(s[..4]) == a.year && Value(s[5..7]) == a.month && Value(s[8..10]) == a.day
            && Value(s[11..13]) == a.hour && Value(s[14..16]) == a.minute && Value(s[17..19]) == a.second
            && (if a.micro == 0 then s[19..] == offset
                else |s| >= 26 && s[19] == '.' && Value(s[20..26]) == a.micro && s[26..] == offset)
  {
    PowersOfTen();
    var s := TextIn(a, offset);
    var fraction := Fraction(a.micro, offset);
    var seconds := Digits(a.second, 2) + fraction;
    var minutes := Digits(a.minute, 2) + (":" + seconds);
    var hours := Digits(a.hour, 2) + (":" + minutes);
    var days := Digits(a.day, 2) + ("T" + hours);
    var months := Digits(a.month, 2) + ("-" + days);
    assert s[0..] == s;
    FieldAt(s, 0, a.year, 4, "-" + months);
    SignAt(s, 4, "-", months);
    FieldAt(s, 5, a.month, 2, "-" + days);
    SignAt(s, 7, "-", days);
    FieldAt(s, 8, a.day, 2, "T" + hours);
    SignAt(s, 10, "T", hours);
    FieldAt(s, 11, a.hour, 2, ":" + minutes);
    SignAt(s, 13, ":", minutes);
    FieldAt(s, 14, a.minute, 2, ":" + seconds);
    SignAt(s, 16, ":", seconds);
    FieldAt(s, 17, a.second, 2, fraction);
    assert s[..4] == s[0..4];
    if a.micro != 0 {
      SignAt(s, 19, ".", Digits(a.micro, 6) + offset);
      FieldAt(s, 20, a.micro, 6, offset);
    }
  }

  lemma FieldAt(s: string, at: nat, n: nat, w: nat, rest: string)
    requires n < Pow10(w) && at <= |s| && s[at..] == Digits(n, w) + rest
    ensures at + w <= |s| && Value(s[at..at + w]) == n && s[at + w..] == rest
  {
    assert |s[at..]| == w + |rest|;
    assert s[at..at + w] == s[at..][..w] == Digits(n, w);
    assert s[at + w..] == s[at..][w..];
    DigitsShow(n, w);
  }

  lemma SignAt(s: string, at: nat, sign: string, rest: string)
    requires |sign| == 1 && at <= |s| && s[at..] == sign + rest
    ensures at < |s| && s[at] == sign[0] && s[at + 1..] == rest
  {
    assert |s[at..]| == 1 + |rest|;
    assert s[at] == s[at..][0];
    assert s[at + 1..] == s[at..][1..];
  }

  /** Offsets start with a sign, and '+' and '-' sort on either side of nothing a fraction starts with. */
  predicate Offset(s: string) {
    |s| > 0 && (s[0] == '+' || s[0] == '-') && !LexLess(s, UTC)
  }

  lemma FractionOrder(m: nat, n: nat)
    requires m < 1_000_000 && n < 1_000_000
    ensures LexLess(Fraction(m, UTC), Fraction(n, UTC)) <==> m < n
  {
    PowersOfTen();
    LexTotal(UTC, UTC);
    if m != 0 && n != 0 {
      LexPrefix(".", Digits(m, 6) + UTC, Digits(n, 6) + UTC);
      FieldOrder(m, n, 6, UTC, UTC);
    }
  }

  lemma SeparatedOrder(sep: string, m: nat, n: nat, s: string, t: string)
    requires m < 100 && n < 100
    ensures Pow10(2) == 100
    ensures LexLess(sep + (Digits(m, 2) + s), sep + (Digits(n, 2) + t)) <==> m < n || (m == n && LexLess(s, t))
  {
    PowersOfTen();
    LexPrefix(sep, Digits(m, 2) + s, Digits(n, 2) + t);
    FieldOrder(m, n, 2, s, t);
  }

  /** Text order of two texts is decided by the fields, and by the fractions when the fields agree. */
  lemma TextOrder(a: Instant, x: string, b: Instant, y: string)
    ensures LexLess(TextIn(a, x), TextIn(b, y))
            <==> Before(a.(micro := 0), b.(micro := 0))
                 || (a.(micro := 0) == b.(micro := 0) && LexLess(Fraction(a.micro, x), Fraction(b.micro, y)))
  {
    PowersOfTen();
    var sa, sb := Fraction(a.micro, x), Fraction(b.micro, y);
    var ma, mb := Digits(a.second, 2) + sa, Digits(b.second, 2) + sb;
    SeparatedOrder(":", a.second, b.second, sa, sb);
    var na, nb := Digits(a.minute, 2) + (":" + ma), Digits(b.minute, 2) + (":" + mb);
    SeparatedOrder(":", a.minute, b.minute, ":" + ma, ":" + mb);
    var ha, hb := Digits(a.hour, 2) + (":" + na), Digits(b.hour, 2) + (":" + nb);
    SeparatedOrder("T", a.hour, b.hour, ":" + na, ":" + nb);
    var da, db := Digits(a.day, 2) + ("T" + ha), Digits(b.day, 2) + ("T" + hb);
    SeparatedOrder("-", a.day, b.day, "T" + ha, "T" + hb);
    var oa, ob := Digits(a.month, 2) + ("-" + da), Digits(b.month, 2) + ("-" + db);
    SeparatedOrder("-", a.month, b.month, "-" + da, "-" + db);
    FieldOrder(a.year, b.year, 4, "-" + oa, "-" + ob);
  }

  /** Comparing stored UTC texts is comparing times, whether or not microseconds are printed. */
  lemma TextOrderIsTimeOrder(a: Instant, b: Instant)
    ensures LexLess(UtcIso(a), UtcIso(b)) <==> Before(a, b)
    ensures UtcIso(a) == UtcIso(b) <==> a == b
  {
    TextOrder(a, UTC, b, UTC);
    TextOrder(b, UTC, a, UTC);
    FractionOrder(a.micro, b.micro);
    FractionOrder(b.micro, a.micro);
    LexTotal(UtcIso(a), UtcIso(b));
  }

  /******* Months *******/

  datatype Month = Month(year: nat, month: nat)

  function MonthOf(a: Instant): Month {
    Month(a.year, a.month)
  }

  predicate Bounded(m: Month) {
    1 <= m.year <= 9999 && 1 <= m.month <= 12 && m != Month(9999, 12)
  }

  /** First instant of the month and of the next; the last month of year 9999 has no next. */
  function MonthBounds(m: Month): (Instant, Instant)
    requires Bounded(m)
  {
    var next := if m.month == 12 then Month(m.year + 1, 1) else Month(m.year, m.month + 1);
    (Civil(m.year, m.month, 1, 0, 0, 0, 0), Civil(next.year, next.month, 1, 0, 0, 0, 0))
  }

  lemma MonthContains(m: Month, a: Instant)
    requires Bounded(m)
    ensures !Before(a, MonthBounds(m).0) && Before(a, MonthBounds(m).1) <==> MonthOf(a) == m
  {
  }

  /** A usage event keeps the offset it was created with. The stored text then falls in the month its
      wall clock shows, which need not be the month of the instant. */
  lemma StoredTextMonth(m: Month, wall: Instant, offset: string)
    requires Bounded(m) && Offset(offset)
    ensures !LexLess(TextIn(wall, offset), UtcIso(MonthBounds(m).0))
            && LexLess(TextIn(wall, offset), UtcIso(MonthBounds(m).1))
            <==> MonthOf(wall) == m
  {
    var (start, end) := MonthBounds(m);
    TextOrder(wall, offset, start, UTC);
    TextOrder(wall, offset, end, UTC);
    MonthContains(m, wall.(micro := 0));
  }
}
