/** Why sorting the `%Y-%m-%d` strings of `_compute_daily_trends` puts the
    days in calendar order: for four-digit years the string order of two
    dates is the order of the days they name, and two instants give the
    same string exactly when they fall on the same UTC day. */
module DateOrder {
  import opened JsonValue
  import opened Outcomes
  import opened Calendar
  import opened DailyTrends
  import opened DailyTrendsLaws
  import opened ConversationStore

  /** The low `w` decimal digits of `n`, zero-padded. */
  function Digits(n: nat, w: nat): (r: string)
    ensures |r| == w
  {
    if w == 0 then [] else Digits(n / 10, w - 1) + [DigitChar(n % 10)]
  }

  function Pow10(w: nat): nat {
    if w == 0 then 1 else 10 * Pow10(w - 1)
  }

  /** Strings that start with parts of one length compare by those parts
      first, and by what follows only when the parts are equal. */
  lemma {:induction false} BelowConcat(a: string, b: string, a': string, b': string)
    requires |a| == |a'|
    ensures Below(a + b, a' + b') <==> Below(a, a') || (a == a' && Below(b, b'))
  {
    if a == [] {
      assert a + b == b && a' + b' == b';
    } else {
      assert (a + b)[0] == a[0] && (a + b)[1..] == a[1..] + b;
      assert (a' + b')[0] == a'[0] && (a' + b')[1..] == a'[1..] + b';
      BelowConcat(a[1..], b, a'[1..], b');
      assert a == [a[0]] + a[1..] && a' == [a'[0]] + a'[1..];
    }
  }

  /** Digit characters are ordered as their digits. */
  lemma DigitCharOrder(d: nat, e: nat)
    requires d < 10 && e < 10
    ensures DigitChar(d) < DigitChar(e) <==> d < e
    ensures DigitChar(d) == DigitChar(e) <==> d == e
  {
    DigitRoundTrip(d);
    DigitRoundTrip(e);
  }

  /** Zero-padded numerals of one width are ordered as their numbers. */
  lemma {:induction false} DigitsOrder(n: nat, n': nat, w: nat)
    requires n < Pow10(w) && n' < Pow10(w)
    ensures Below(Digits(n, w), Digits(n', w)) <==> n < n'
    ensures Digits(n, w) == Digits(n', w) <==> n == n'
  {
    if w == 0 {
      BelowIrreflexive([]);
    } else {
      var p, p' := Digits(n / 10, w - 1), Digits(n' / 10, w - 1);
      var c, c' := DigitChar(n % 10), DigitChar(n' % 10);
      DigitsOrder(n / 10, n' / 10, w - 1);
      DigitCharOrder(n % 10, n' % 10);
      BelowConcat(p, [c], p', [c']);
      assert Below([c], [c']) <==> c < c' by {
        assert [c][1..] == [] && [c'][1..] == [];
        BelowIrreflexive([]);
      }
      assert (p + [c])[..|p|] == p && (p' + [c'])[..|p'|] == p';
      assert (p + [c])[|p|] == c && (p' + [c'])[|p'|] == c';
    }
  }

  /** `%Y-%m-%d` written as its three numerals. */
  lemma FormatDateDigits(d: Date)
    requires 1 <= d.year <= 9999 && 1 <= d.month <= 12 && 1 <= d.day <= 31
    ensures FormatDate(d) == Digits(d.year, 4) + (['-'] + (Digits(d.month, 2) + (['-'] + Digits(d.day, 2))))
  {
    var y, m := d.year, d.month;
    assert y / 10 / 10 == y / 100 && y / 100 / 10 == y / 1000;
    assert y / 1000 / 10 == 0 && m / 10 / 10 == 0 && d.day / 10 / 10 == 0;
    assert Digits(y / 1000, 1) == [DigitChar(y / 1000)];
    assert Digits(y / 100, 2) == [DigitChar(y / 1000), DigitChar(y / 100 % 10)];
    assert Digits(y / 10, 3) == [DigitChar(y / 1000), DigitChar(y / 100 % 10), DigitChar(y / 10 % 10)];
    assert Digits(y, 4) == [DigitChar(y / 1000), DigitChar(y / 100 % 10), DigitChar(y / 10 % 10), DigitChar(y % 10)];
    assert Digits(m, 2) == [DigitChar(m / 10), DigitChar(m % 10)];
    assert Digits(d.day, 2) == [DigitChar(d.day / 10), DigitChar(d.day % 10)];
  }

  /** `d` is an earlier date than `e`. */
  predicate Earlier(d: Date, e: Date) {
    || d.year < e.year
    || (d.year == e.year && (d.month < e.month || (d.month == e.month && d.day < e.day)))
  }

  /** The string order of two dates is their calendar order. */
  lemma FormatDateOrder(d: Date, e: Date)
    requires 1 <= d.year <= 9999 && 1 <= d.month <= 12 && 1 <= d.day <= 31
    requires 1 <= e.year <= 9999 && 1 <= e.month <= 12 && 1 <= e.day <= 31
    ensures Below(FormatDate(d), FormatDate(e)) <==> Earlier(d, e)
    ensures FormatDate(d) == FormatDate(e) <==> d == e
  {
    FormatDateDigits(d);
    FormatDateDigits(e);
    assert Pow10(2) == 100 && Pow10(4) == 10000;
    DigitsOrder(d.year, e.year, 4);
    DigitsOrder(d.month, e.month, 2);
    DigitsOrder(d.day, e.day, 2);
    var dd, ed := Digits(d.day, 2), Digits(e.day, 2);
    var dm, em := Digits(d.month, 2) + (['-'] + dd), Digits(e.month, 2) + (['-'] + ed);
    BelowConcat(['-'], dd, ['-'], ed);
    BelowConcat(Digits(d.month, 2), ['-'] + dd, Digits(e.month, 2), ['-'] + ed);
    BelowConcat(['-'], dm, ['-'], em);
    BelowConcat(Digits(d.year, 4), ['-'] + dm, Digits(e.year, 4), ['-'] + em);
    SplitEqual(['-'], dd, ['-'], ed);
    SplitEqual(Digits(d.month, 2), ['-'] + dd, Digits(e.month, 2), ['-'] + ed);
    SplitEqual(['-'], dm, ['-'], em);
    SplitEqual(Digits(d.year, 4), ['-'] + dm, Digits(e.year, 4), ['-'] + em);
  }

  lemma SplitEqual(a: string, b: string, a': string, b': string)
    requires |a| == |a'|
    ensures a + b == a' + b' <==> a == a' && b == b'
  {
    if a + b == a' + b' {
      assert (a + b)[..|a|] == a && (a' + b')[..|a'|] == a';
      assert (a + b)[|a|..] == b && (a' + b')[|a'|..] == b';
    }
  }

  /** One day ends before the next begins: a date is earlier exactly when
      its day number is smaller. */
  lemma EarlierIsSooner(o: int, d: Date, o': int, e: Date)
    requires IsDay(o, d) && IsDay(o', e) && Earlier(d, e)
    ensures o < o'
  {
    InYear(o, d.year, d.month);
    InYear(o', e.year, e.month);
    if d.year < e.year {
      YearsGrow(d.year + 1, e.year);
    } else if d.month < e.month {
      MonthsGrow(d.year, d.month, e.month);
    }
  }

  lemma DayNumberOrder(o: int, d: Date, o': int, e: Date)
    requires IsDay(o, d) && IsDay(o', e)
    ensures o < o' <==> Earlier(d, e)
    ensures o == o' <==> d == e
  {
    if Earlier(d, e) {
      EarlierIsSooner(o, d, o', e);
    } else if Earlier(e, d) {
      EarlierIsSooner(o', e, o, d);
    }
  }

  /** For two instants in the years 1 to 9999, the `%Y-%m-%d` strings
      compare as their UTC days: one is below the other exactly when its
      day comes first, and they are equal exactly when the instants share a
      day. */
  lemma DayStringsFollowCalendar(t: int, t': int)
    requires MinTimestamp <= t <= MaxTimestamp && MinTimestamp <= t' <= MaxTimestamp
    ensures DayOf(JInt(t)).Success? && DayOf(JInt(t')).Success?
    ensures Below(DayOf(JInt(t)).value, DayOf(JInt(t')).value) <==> Ordinal(t) < Ordinal(t')
    ensures DayOf(JInt(t)) == DayOf(JInt(t')) <==> Ordinal(t) == Ordinal(t')
  {
    var d, e := DateOfTimestamp(t).value, DateOfTimestamp(t').value;
    DateOfTimestampSpec(t);
    DateOfTimestampSpec(t');
    FormatDateOrder(d, e);
    DayNumberOrder(Ordinal(t), d, Ordinal(t'), e);
  }

  /** A start time that has a date is an instant in the years 1 to 9999. */
  lemma DayOfInstant(ts: Json)
    requires DayOf(ts).Success?
    ensures Seconds(ts).Success? && MinTimestamp <= Seconds(ts).value <= MaxTimestamp
    ensures DayOf(ts) == DayOf(JInt(Seconds(ts).value))
  {
  }

  /** The result lists the days in calendar order: every conversation
      counted in an entry started on an earlier UTC day than every
      conversation counted in a later entry. */
  lemma DailyTrendsChronological(rows: seq<Conversation>, i: int, j: int, a: Conversation, b: Conversation)
    requires DailyTrendsOf(rows).Success?
    requires 0 <= i < j < |DailyTrendsOf(rows).value|
    requires StartedOn(a, DailyTrendsOf(rows).value[i].date) && StartedOn(b, DailyTrendsOf(rows).value[j].date)
    ensures Ordinal(Seconds(a.startTimeUnix).value) < Ordinal(Seconds(b.startTimeUnix).value)
  {
    DailyTrendsSorted(rows);
    DayOfInstant(a.startTimeUnix);
    DayOfInstant(b.startTimeUnix);
    DayStringsFollowCalendar(Seconds(a.startTimeUnix).value, Seconds(b.startTimeUnix).value);
  }
}
