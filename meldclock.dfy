/**
 * The timestamp arithmetic of `send_meld` and `schedule_meld`
 * (api/urbit.py:574-612, 661-696) on whole seconds since the epoch. The
 * source mixes `datetime.utcnow()` with local-time conversions; on a host
 * whose zone is UTC, which this model assumes, every conversion is the
 * identity and "today at HH:MM" is the start of the current day plus HH
 * hours and MM minutes.
 */
module MeldClock {
  import opened Wrappers
  import opened Strings

  const SecondsPerDay: int := 86400

  /** Midnight of the day holding `t`. */
  function DayStart(t: int): (d: int)
    ensures d <= t < d + SecondsPerDay && d % SecondsPerDay == 0
  {
    t - t % SecondsPerDay
  }

  /** An hour and minute `datetime.replace` accepts. */
  predicate IsClock(hour: int, minute: int)
  {
    0 <= hour <= 23 && 0 <= minute <= 59
  }

  /**
   * `meld_next` after a successful meld at `now`: today at the scheduled
   * HH:MM with the seconds zeroed, plus `freq` days (api/urbit.py:677-681).
   */
  function NextMeld(now: int, hour: int, minute: int, freq: int): int
  {
    DayStart(now) + hour * 3600 + minute * 60 + freq * SecondsPerDay
  }

  /**
   * `meld_next` after `schedule_meld(patp, freq, hour, minute)`: the old
   * `meld_next` moved to HH:MM of its own day, its seconds kept, then
   * shifted by the change of frequency in days (api/urbit.py:578-583).
   */
  function Rescheduled(meldNext: int, oldFreq: int, freq: int, hour: int, minute: int): int
  {
    DayStart(meldNext) + hour * 3600 + minute * 60 + meldNext % 60 + (freq - oldFreq) * SecondsPerDay
  }

  /** `'0' + str(x)` below ten, else `str(x)` (api/urbit.py:587-597). */
  function Pad2(x: nat): (s: string)
    requires x < 100
    ensures |s| == 2 && IsDigit(s[0]) && IsDigit(s[1])
  {
    if x < 10 then ['0', DigitChar(x)] else [DigitChar(x / 10), DigitChar(x % 10)]
  }

  /** The `meld_time` string that `schedule_meld` stores: `HHMM`. */
  function FormatMeldTime(hour: nat, minute: nat): (s: string)
    requires IsClock(hour, minute)
    ensures |s| == 4
  {
    Pad2(hour) + Pad2(minute)
  }

  /**
   * `int(meld_time[0:2])` and `int(meld_time[2:])`; None where either
   * `int` raises.
   */
  function ParseMeldTime(s: string): (r: Option<(nat, nat)>)
    ensures r.Some? <==> ParseNat(Slice(s, 0, 2)).Some? && ParseNat(Slice(s, 2, |s|)).Some?
  {
    match (ParseNat(Slice(s, 0, 2)), ParseNat(Slice(s, 2, |s|)))
    case (Some(h), Some(m)) => Some((h, m))
    case _ => None
  }

  lemma Pad2Value(x: nat)
    requires x < 100
    ensures ParseNat(Pad2(x)) == Some(x)
  {
    var s := Pad2(x);
    assert s[..1] == [s[0]] && s[..0] == [];
    assert DigitsValue(s) == DigitsValue(s[..1]) * 10 + DigitValue(s[1]);
    assert DigitsValue(s[..1]) == DigitValue(s[0]);
  }

  /**
   * api/urbit.py:587-598 against 677-678 and 380-381: the stored `HHMM`
   * string is four digits and reads back as the hour and minute given.
   */
  lemma MeldTimeRoundTrip(hour: nat, minute: nat)
    requires IsClock(hour, minute)
    ensures ParseMeldTime(FormatMeldTime(hour, minute)) == Some((hour, minute))
    ensures forall k :: 0 <= k < 4 ==> IsDigit(FormatMeldTime(hour, minute)[k])
  {
    var s := FormatMeldTime(hour, minute);
    assert Slice(s, 0, 2) == Pad2(hour);
    assert Slice(s, 2, |s|) == Pad2(minute);
    Pad2Value(hour);
    Pad2Value(minute);
  }

  /** The default `meld_time` "0000" is midnight. */
  lemma DefaultMeldTime()
    ensures ParseMeldTime("0000") == Some((0, 0))
  {
    MeldTimeRoundTrip(0, 0);
    assert FormatMeldTime(0, 0) == "0000";
  }

  /**
   * api/urbit.py:677-681: after a meld, `meld_next` falls exactly `freq`
   * days after today, at the scheduled time of day.
   */
  lemma NextMeldPlacement(now: int, hour: int, minute: int, freq: int)
    requires IsClock(hour, minute)
    ensures NextMeld(now, hour, minute, freq) % SecondsPerDay == hour * 3600 + minute * 60
    ensures NextMeld(now, hour, minute, freq) / SecondsPerDay == now / SecondsPerDay + freq
  {
    var tod := hour * 3600 + minute * 60;
    var d := now / SecondsPerDay;
    assert DayStart(now) == d * SecondsPerDay;
    assert NextMeld(now, hour, minute, freq) == (d + freq) * SecondsPerDay + tod;
    assert 0 <= tod < SecondsPerDay;
  }

  /**
   * With a frequency of at least one day a pier is never due again right
   * after a successful meld; `meld_next` then lies less than a day either
   * side of `now + freq` days. With frequency zero and a time of day already
   * past, the pier stays due.
   */
  lemma NextMeldAfterNow(now: int, hour: int, minute: int, freq: int)
    requires IsClock(hour, minute)
    ensures freq >= 1 ==> NextMeld(now, hour, minute, freq) > now
    ensures now + freq * SecondsPerDay - SecondsPerDay < NextMeld(now, hour, minute, freq)
    ensures NextMeld(now, hour, minute, freq) < now + freq * SecondsPerDay + SecondsPerDay
    ensures freq == 0 && hour * 3600 + minute * 60 <= now % SecondsPerDay ==> NextMeld(now, hour, minute, freq) <= now
  {
  }

  /**
   * api/urbit.py:578-583: rescheduling keeps the seconds of `meld_next`,
   * places it at HH:MM, and moves its day by the change of frequency.
   */
  lemma RescheduledPlacement(meldNext: int, oldFreq: int, freq: int, hour: int, minute: int)
    requires IsClock(hour, minute)
    ensures Rescheduled(meldNext, oldFreq, freq, hour, minute) % SecondsPerDay == hour * 3600 + minute * 60 + meldNext % 60
    ensures Rescheduled(meldNext, oldFreq, freq, hour, minute) / SecondsPerDay == meldNext / SecondsPerDay + (freq - oldFreq)
  {
    var tod := hour * 3600 + minute * 60 + meldNext % 60;
    var d := meldNext / SecondsPerDay;
    assert DayStart(meldNext) == d * SecondsPerDay;
    assert Rescheduled(meldNext, oldFreq, freq, hour, minute) == (d + freq - oldFreq) * SecondsPerDay + tod;
    assert 0 <= tod < SecondsPerDay;
  }

  /** Splitting `x` into whole days and the seconds into the day. */
  lemma DayParts(x: int, k: int, r: int)
    requires 0 <= r < SecondsPerDay && x == k * SecondsPerDay + r
    ensures x / SecondsPerDay == k && x % SecondsPerDay == r
  {
  }

  /** Splitting `x` into whole hours and the seconds into the hour. */
  lemma HourParts(x: int, k: int, r: int)
    requires 0 <= r < 3600 && x == k * 3600 + r
    ensures x % 3600 == r
  {
  }

  /** Splitting `x` into whole minutes and the seconds into the minute. */
  lemma MinuteParts(x: int, k: int, r: int)
    requires 0 <= r < 60 && x == k * 60 + r
    ensures x % 60 == r
  {
  }

  /**
   * Rescheduling to the same frequency and to the time of day `meld_next`
   * already has leaves it unchanged.
   */
  lemma RescheduleUnchanged(meldNext: int, freq: int)
    ensures IsClock((meldNext % SecondsPerDay) / 3600, (meldNext % 3600) / 60)
    ensures Rescheduled(meldNext, freq, freq, (meldNext % SecondsPerDay) / 3600, (meldNext % 3600) / 60) == meldNext
  {
    var d := meldNext / SecondsPerDay;
    var r := meldNext % SecondsPerDay;
    var h := r / 3600;
    var q := r % 3600;
    var m := q / 60;
    HourParts(meldNext, d * 24 + h, q);
    MinuteParts(meldNext, d * 1440 + h * 60 + m, q % 60);
    assert DayStart(meldNext) == d * SecondsPerDay;
  }

  /**
   * Two reschedules to the same time of day compose: the day moves by the
   * total change of frequency.
   */
  lemma RescheduleTwice(meldNext: int, f0: int, f1: int, f2: int, hour: int, minute: int)
    requires IsClock(hour, minute)
    ensures Rescheduled(Rescheduled(meldNext, f0, f1, hour, minute), f1, f2, hour, minute)
         == Rescheduled(meldNext, f0, f2, hour, minute)
  {
    var d := meldNext / SecondsPerDay;
    var sec := meldNext % 60;
    var tod := hour * 3600 + minute * 60 + sec;
    assert DayStart(meldNext) == d * SecondsPerDay;
    var once := Rescheduled(meldNext, f0, f1, hour, minute);
    assert once == (d + f1 - f0) * SecondsPerDay + tod;
    DayParts(once, d + f1 - f0, tod);
    MinuteParts(once, (d + f1 - f0) * 1440 + hour * 60 + minute, sec);
  }
}
