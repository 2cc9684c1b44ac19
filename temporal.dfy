// The temporal features of both copies (lab/ml_dataset_generator.py:649-666,
// apps/kube-stress/coleta/sistema_coleta_dados.py:366-383). A timestamp is a whole number of
// seconds since the epoch; `datetime.fromtimestamp` converts to local time, which is the
// timestamp shifted by the zone's offset in seconds.
module Temporal {
  import opened Numbers
  import opened Frames
  import opened DerivedFeatures

  const SecondsPerDay := 86400

  /** `.dt.hour`. */
  function Hour(t: int, offset: int): (h: int)
    ensures 0 <= h < 24
  {
    ((t + offset) / 3600) % 24
  }

  /** `.dt.minute`. */
  function Minute(t: int, offset: int): (m: int)
    ensures 0 <= m < 60
  {
    ((t + offset) / 60) % 60
  }

  /** `.dt.dayofweek`: Monday is 0; 1 January 1970 was a Thursday. */
  function DayOfWeek(t: int, offset: int): (d: int)
    ensures 0 <= d < 7
  {
    ((t + offset) / SecondsPerDay + 3) % 7
  }

  /** `pd.cut(hour, bins=[0, 6, 12, 18, 24], include_lowest=True)`: the bins are closed on
      the right, and the first one also holds its left edge 0. */
  function Period(h: int): (p: string)
    requires 0 <= h < 24
    ensures p in {"madrugada", "manha", "tarde", "noite"}
    ensures p == "madrugada" <==> h <= 6
    ensures p == "manha" <==> 6 < h <= 12
    ensures p == "tarde" <==> 12 < h <= 18
    ensures p == "noite" <==> 18 < h
  {
    if h <= 6 then "madrugada" else if h <= 12 then "manha" else if h <= 18 then "tarde" else "noite"
  }

  /** `day_of_week.isin([5, 6])`. */
  function IsWeekend(d: int): (w: Num)
    ensures IsFlag(w) && (w == Fin(1.0) <==> d == 5 || d == 6)
  {
    Flag(d == 5 || d == 6)
  }

  /** The local time of day is the hour, the minute and the second within the minute. */
  lemma {:induction false} TimeOfDay(t: int, offset: int)
    ensures (t + offset) % SecondsPerDay == 3600 * Hour(t, offset) + 60 * Minute(t, offset) + (t + offset) % 60
  {
    var s := t + offset;
    var q := s / 60;
    assert s == 60 * q + s % 60;
    assert q == 60 * (q / 60) + q % 60;
    var hq := q / 60;
    assert hq == s / 3600 by {
      assert s == 3600 * hq + (60 * (q % 60) + s % 60);
      assert 0 <= 60 * (q % 60) + s % 60 < 3600;
    }
    assert hq == 24 * (hq / 24) + hq % 24;
    assert s == SecondsPerDay * (hq / 24) + (3600 * (hq % 24) + 60 * (q % 60) + s % 60);
    assert 0 <= 3600 * (hq % 24) + 60 * (q % 60) + s % 60 < SecondsPerDay;
  }

  /** One day later is the next day of the week at the same hour and minute. */
  lemma {:induction false} NextDay(t: int, offset: int)
    ensures DayOfWeek(t + SecondsPerDay, offset) == (DayOfWeek(t, offset) + 1) % 7
    ensures Hour(t + SecondsPerDay, offset) == Hour(t, offset)
    ensures Minute(t + SecondsPerDay, offset) == Minute(t, offset)
  {
    var s := t + offset;
    Shift(s, SecondsPerDay, 1);
    Shift(s, 3600, 24);
    Shift(s, 60, 1440);
    Shift(s / 3600, 24, 1);
    Shift(s / 60, 60, 24);
  }

  /** Adding `k` times `d` adds `k` to the quotient and keeps the remainder. */
  lemma Shift(s: int, d: int, k: int)
    requires d > 0
    ensures (s + k * d) / d == s / d + k && (s + k * d) % d == s % d
  {
    var q, r := s / d, s % d;
    assert s + k * d == (q + k) * d + r;
    DivUnique(s + k * d, d, q + k, r);
  }

  lemma DivUnique(a: int, d: int, q: int, r: int)
    requires d > 0 && 0 <= r < d && a == q * d + r
    ensures a / d == q && a % d == r
  {
    var q', r' := a / d, a % d;
    assert a == q' * d + r';
    assert (q - q') * d == r' - r;
    MulSign(q - q', d);
  }

  lemma MulSign(x: int, d: int)
    requires d > 0
    ensures x >= 1 ==> x * d >= d
    ensures x <= -1 ==> x * d <= -d
  {
    if x >= 1 {
      assert x * d == (x - 1) * d + d;
      MulNonneg(x - 1, d);
    } else if x <= -1 {
      assert x * d == -((-x - 1) * d) - d;
      MulNonneg(-x - 1, d);
    }
  }

  lemma MulNonneg(a: int, b: int)
    requires a >= 0 && b >= 0
    ensures a * b >= 0
  {
  }

  /** The epoch in UTC: Thursday at midnight, in the first period; two days later is a Saturday. */
  lemma Epoch()
    ensures DayOfWeek(0, 0) == 3 && Hour(0, 0) == 0 && Period(Hour(0, 0)) == "madrugada"
    ensures IsWeekend(DayOfWeek(2 * SecondsPerDay, 0)) == Fin(1.0)
  {
  }

  const TemporalColumns := {"hour", "day_of_week", "minute", "period", "is_weekend"}

  function Hours(df: Frame, offset: int): (hs: seq<int>)
    ensures |hs| == |df.rows| && forall i :: 0 <= i < |df.rows| ==> hs[i] == Hour(df.rows[i].key.timestamp, offset)
  {
    seq(|df.rows|, i requires 0 <= i < |df.rows| => Hour(df.rows[i].key.timestamp, offset))
  }

  function Days(df: Frame, offset: int): (ds: seq<int>)
    ensures |ds| == |df.rows| && forall i :: 0 <= i < |df.rows| ==> ds[i] == DayOfWeek(df.rows[i].key.timestamp, offset)
  {
    seq(|df.rows|, i requires 0 <= i < |df.rows| => DayOfWeek(df.rows[i].key.timestamp, offset))
  }

  function Minutes(df: Frame, offset: int): (ms: seq<int>)
    ensures |ms| == |df.rows| && forall i :: 0 <= i < |df.rows| ==> ms[i] == Minute(df.rows[i].key.timestamp, offset)
  {
    seq(|df.rows|, i requires 0 <= i < |df.rows| => Minute(df.rows[i].key.timestamp, offset))
  }

  function Reals(xs: seq<int>): (vs: seq<Num>)
    ensures |vs| == |xs| && forall i :: 0 <= i < |xs| ==> vs[i] == Fin(xs[i] as real)
  {
    seq(|xs|, i requires 0 <= i < |xs| => Fin(xs[i] as real))
  }

  function Periods(hs: seq<int>): (cs: seq<Cell>)
    requires forall i :: 0 <= i < |hs| ==> 0 <= hs[i] < 24
    ensures |cs| == |hs| && forall i :: 0 <= i < |hs| ==> cs[i] == Category(Period(hs[i]))
  {
    seq(|hs|, i requires 0 <= i < |hs| => Category(Period(hs[i])))
  }

  function Weekends(ds: seq<int>): (vs: seq<Num>)
    ensures |vs| == |ds| && forall i :: 0 <= i < |ds| ==> vs[i] == IsWeekend(ds[i])
  {
    seq(|ds|, i requires 0 <= i < |ds| => IsWeekend(ds[i]))
  }

  /** A numeric assignment leaves every other cell as it was. */
  lemma NumbersKeepCell(f: Frame, c: string, values: seq<Num>, d: string, i: nat)
    requires |values| == |f.rows| && d != c && i < |f.rows| && d in f.rows[i].cells
    ensures d in SetNumbers(f, c, values).rows[i].cells && SetNumbers(f, c, values).rows[i].cells[d] == f.rows[i].cells[d]
  {
  }

  /** The first three assignments of `_add_temporal_features`. */
  method ClockColumns(df: Frame, offset: int) returns (r: Frame)
    ensures Agree(df, r, {"hour", "day_of_week", "minute"})
    ensures Has(r, "hour") && Has(r, "day_of_week") && Has(r, "minute")
    ensures Column(r, "hour") == Reals(Hours(df, offset))
    ensures Column(r, "day_of_week") == Reals(Days(df, offset))
    ensures Column(r, "minute") == Reals(Minutes(df, offset))
  {
    var r1 := SetNumbers(df, "hour", Reals(Hours(df, offset)));
    var r2 := SetNumbers(r1, "day_of_week", Reals(Days(df, offset)));
    r := SetNumbers(r2, "minute", Reals(Minutes(df, offset)));
    AgreeTrans(df, r1, r2, {"hour"}, {"day_of_week"});
    AgreeTrans(df, r2, r, {"hour", "day_of_week"}, {"minute"});
  }

  /** `_add_temporal_features`: five new columns computed from each row's timestamp. */
  method AddTemporalFeatures(df: Frame, offset: int) returns (r: Frame)
    ensures Agree(df, r, TemporalColumns)
    ensures Has(r, "hour") && Has(r, "day_of_week") && Has(r, "minute") && Has(r, "period") && Has(r, "is_weekend")
    ensures Column(r, "hour") == Reals(Hours(df, offset))
    ensures Column(r, "day_of_week") == Reals(Days(df, offset))
    ensures Column(r, "minute") == Reals(Minutes(df, offset))
    ensures Column(r, "is_weekend") == Weekends(Days(df, offset))
    ensures forall i :: 0 <= i < |r.rows| ==>
              "period" in r.rows[i].cells && r.rows[i].cells["period"] == Category(Period(Hours(df, offset)[i]))
  {
    var hours := Hours(df, offset);
    var days := Days(df, offset);
    var r3 := ClockColumns(df, offset);
    assert |Keys(r3)| == |Keys(df)|;
    var r4 := SetColumn(r3, "period", Periods(hours));
    assert Agree(r3, r4, {"period"}) by {
      assert forall d, i :: d != "period" && 0 <= i < |r4.rows| ==> NumAt(r4.rows[i], d) == NumAt(r3.rows[i], d);
    }
    r := SetNumbers(r4, "is_weekend", Weekends(days));
    AgreeTrans(df, r3, r4, {"hour", "day_of_week", "minute"}, {"period"});
    AgreeTrans(df, r4, r, {"hour", "day_of_week", "minute", "period"}, {"is_weekend"});
    forall i | 0 <= i < |r.rows| ensures "period" in r.rows[i].cells && r.rows[i].cells["period"] == Category(Period(hours[i])) {
      NumbersKeepCell(r4, "is_weekend", Weekends(days), "period", i);
    }
  }
}
