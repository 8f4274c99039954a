// The duration arithmetic shared by the bot's cooldown replies and the
// playtime displays: JavaScript's `Math.floor` over `/` and its truncating
// `%`, and the "N unit(s)" wording.
module Durations {
  import opened Text

  /** JavaScript's `a % b` for a positive divisor: the remainder takes the sign of `a`. */
  function JsRem(a: int, b: int): (r: int)
    requires b > 0
    ensures -b < r < b
    ensures a >= 0 ==> r >= 0
    ensures a <= 0 ==> r <= 0
  {
    if a >= 0 then a % b else -((-a) % b)
  }

  datatype MinSec = MinSec(minutes: int, seconds: int)

  /** `Math.floor(ms / 60000)` minutes and `Math.floor((ms % 60000) / 1000)` seconds. */
  function MinutesSeconds(ms: int): (r: MinSec)
    ensures ms >= 0 ==> 0 <= r.seconds < 60 && 0 <= r.minutes
    ensures ms >= 0 ==> r.minutes * 60000 + r.seconds * 1000 <= ms < r.minutes * 60000 + r.seconds * 1000 + 1000
  {
    MinSec(ms / 60000, JsRem(ms, 60000) / 1000)
  }

  datatype HourMin = HourMin(hours: int, minutes: int)

  /** `Math.floor(s / 3600)` hours and `Math.floor((s % 3600) / 60)` minutes. */
  function HoursMinutes(s: int): (r: HourMin)
    ensures s >= 0 ==> 0 <= r.minutes < 60 && 0 <= r.hours
    ensures s >= 0 ==> r.hours * 3600 + r.minutes * 60 <= s < r.hours * 3600 + r.minutes * 60 + 60
  {
    HourMin(s / 3600, JsRem(s, 3600) / 60)
  }

  /** "N unit", with an "s" unless N is exactly 1. */
  function Counted(n: int, unit: string): string
  {
    IntToString(n) + " " + (if n != 1 then unit + "s" else unit)
  }

  /** The "N minutes M seconds" wait message of the day vote. */
  function MinutesSecondsText(ms: int): string
  {
    var t := MinutesSeconds(ms);
    Counted(t.minutes, "minute") + " " + Counted(t.seconds, "second")
  }

  /** A remaining time of exactly one minute and one second is worded in the singular, two in the plural. */
  lemma MinutesSecondsWording()
    ensures MinutesSecondsText(61000) == "1 minute 1 second"
    ensures MinutesSecondsText(122999) == "2 minutes 2 seconds"
  {
    SingularWording();
    PluralWording();
  }

  lemma SingularWording()
    ensures MinutesSecondsText(61000) == "1 minute 1 second"
  {
    assert MinutesSeconds(61000) == MinSec(1, 1);
    CountedOne("minute");
    CountedOne("second");
  }

  lemma PluralWording()
    ensures MinutesSecondsText(122999) == "2 minutes 2 seconds"
  {
    assert MinutesSeconds(122999) == MinSec(2, 2);
    CountedTwo("minute");
    CountedTwo("second");
  }

  lemma CountedOne(unit: string)
    ensures Counted(1, unit) == "1 " + unit
  {
    assert IntToString(1) == "1";
  }

  lemma CountedTwo(unit: string)
    ensures Counted(2, unit) == "2 " + unit + "s"
  {
    assert IntToString(2) == "2";
  }
}
