/** A Python `datetime` as the number of milliseconds since 1970-01-01 00:00,
    read on a UTC clock, within the years 1 to 9999 that `datetime` supports.
    `Text` is what str() of such a value prints. */
module Datetime {
  import opened PyText

  const DAY_MS: int := 86_400_000

  /** 0001-01-01 00:00:00.000 */
  const MIN_MS: int := -62_135_596_800_000

  /** 9999-12-31 23:59:59.999 */
  const MAX_MS: int := 253_402_300_799_999

  type EpochMs = ms: int | MIN_MS <= ms <= MAX_MS witness 0

  /** `str(n)` left-padded with zeros to `width` characters, like "%0*d". */
  function ZeroPad(n: nat, width: nat): (r: string)
    ensures |r| >= width
    ensures forall i :: 0 <= i < |r| ==> IsDigit(r[i])
  {
    var digits := NatToString(n);
    if |digits| >= width then digits
    else seq(width - |digits|, _ => '0') + digits
  }

  /** Year, month and day of the proleptic Gregorian calendar for a count of
      days since 1970-01-01 (days from civil, read backwards). */
  function CivilFromDays(days: int): (ymd: (nat, nat, nat))
    requires days >= -719_468
  {
    var z: nat := days + 719_468;
    var era: nat := z / 146_097;
    var doe: nat := z - era * 146_097;
    var yoe: nat := (doe - doe / 1_460 + doe / 36_524 - doe / 146_096) / 365;
    var doy: int := doe - (365 * yoe + yoe / 4 - yoe / 100);
    var mp: int := (5 * doy + 2) / 153;
    var day: int := doy - (153 * mp + 2) / 5 + 1;
    var month: int := if mp < 10 then mp + 3 else mp - 9;
    var year: nat := yoe + era * 400 + (if month <= 2 then 1 else 0);
    (year, if month < 0 then 0 else month, if day < 0 then 0 else day)
  }

  /** "YYYY-MM-DD" for a count of days since 1970-01-01. */
  function DateText(days: int): (r: string)
    requires days >= -719_468
    ensures '-' in r
  {
    var (year, month, day) := CivilFromDays(days);
    var r := ZeroPad(year, 4) + "-" + ZeroPad(month, 2) + "-" + ZeroPad(day, 2);
    assert r[|ZeroPad(year, 4)|] == '-';
    r
  }

  /** "HH:MM:SS" for a number of seconds into the day. */
  function ClockText(seconds: nat): (r: string)
    ensures ':' in r
  {
    var r := ZeroPad(seconds / 3600, 2) + ":" + ZeroPad(seconds / 60 % 60, 2) + ":" + ZeroPad(seconds % 60, 2);
    assert r[|ZeroPad(seconds / 3600, 2)|] == ':';
    r
  }

  /** str(datetime): "YYYY-MM-DD HH:MM:SS", followed by ".ffffff" when the
      microsecond is not zero. */
  function Text(ms: EpochMs): (r: string)
    ensures ':' in r && '-' in r
  {
    var inDay := ms % DAY_MS;
    var micro := (inDay % 1000) * 1000;
    DateText(ms / DAY_MS) + " " + ClockText(inDay / 1000) + (if micro == 0 then "" else "." + ZeroPad(micro, 6))
  }

  lemma CivilOfEpoch()
    ensures CivilFromDays(0) == (1970, 1, 1)
  {
    assert 719_468 / 146_097 == 4;
    assert 135_080 / 1_460 == 92 && 135_080 / 36_524 == 3 && 135_080 / 146_096 == 0;
    assert 134_991 / 365 == 369 && 369 / 4 == 92 && 369 / 100 == 3;
    assert 1_532 / 153 == 10;
  }

  lemma YearOfEpoch()
    ensures ZeroPad(1970, 4) == "1970"
  {
    assert NatToString(1) == "1";
    assert NatToString(19) == "19";
    assert NatToString(197) == "197";
  }

  lemma DateOfEpoch()
    ensures DateText(0) == "1970-01-01"
  {
    CivilOfEpoch();
    YearOfEpoch();
    assert ZeroPad(1, 2) == "01";
  }

  lemma ClockOfMidnight()
    ensures ClockText(0) == "00:00:00"
  {
    assert ZeroPad(0, 2) == "00";
  }

  /** A whole second carries no fractional part. */
  lemma TextOfWholeSecond(ms: EpochMs)
    requires ms % 1000 == 0
    ensures Text(ms) == DateText(ms / DAY_MS) + " " + ClockText(ms % DAY_MS / 1000)
  {
    assert ms % DAY_MS % 1000 == 0;
  }

  /** Joining the two halves of the epoch's text, kept apart from their
      evaluation so that the concatenation is checked on plain strings. */
  lemma JoinDateAndClock(date: string, clock: string)
    requires date == "1970-01-01" && clock == "00:00:00"
    ensures date + " " + clock == "1970-01-01 00:00:00"
  {
  }

  /** The epoch itself prints as midnight of 1 January 1970. */
  lemma TextOfEpoch()
    ensures Text(0) == "1970-01-01 00:00:00"
  {
    TextOfWholeSecond(0);
    assert 0 / DAY_MS == 0 && 0 % DAY_MS / 1000 == 0;
    var date, clock := DateText(0), ClockText(0);
    DateOfEpoch();
    ClockOfMidnight();
    JoinDateAndClock(date, clock);
  }
}
