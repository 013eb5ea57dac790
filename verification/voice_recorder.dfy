/**
 * The recording timer's display: `formatTime` renders elapsed seconds as minutes, a colon
 * and two-digit seconds ("m:ss"), and the display can be read back.
 */
module VoiceRecorder {
  import opened Wrappers
  import Text

  /** The two-digit seconds field: `secs.toString().padStart(2, '0')`. */
  function Seconds(secs: nat): (r: string)
    requires secs < 60
    ensures |r| == 2 && Text.AllDigits(r)
    ensures Text.ParseDigits(r) == secs
  {
    var d := Text.Decimal(secs);
    Text.ParseDecimal(secs);
    if secs < 10 then
      var r := Text.PadStartZero(d, 2);
      assert r == ['0'] + d;
      assert r[..1] == ['0'];
      r
    else
      Text.PadStartZero(d, 2)
  }

  /** `formatTime(seconds)`: whole minutes, ':', then the remaining seconds on two digits. */
  function FormatTime(seconds: nat): (r: string)
    ensures |r| >= 4 && r[|r| - 3] == ':'
    ensures r[..|r| - 3] == Text.Decimal(seconds / 60)
    ensures Text.AllDigits(r[|r| - 2..]) && Text.ParseDigits(r[|r| - 2..]) == seconds % 60
  {
    var r := Text.Decimal(seconds / 60) + ":" + Seconds(seconds % 60);
    assert r[|r| - 2..] == Seconds(seconds % 60);
    r
  }

  /** Reads an "m:ss" display back as a number of seconds; None for anything else. */
  function ReadTime(t: string): (r: Option<nat>)
    ensures r.Some? ==> |t| >= 4 && t[|t| - 3] == ':'
  {
    if |t| >= 4 && t[|t| - 3] == ':' && Text.AllDigits(t[..|t| - 3]) && Text.AllDigits(t[|t| - 2..])
       && Text.ParseDigits(t[|t| - 2..]) < 60
    then Some(Text.ParseDigits(t[..|t| - 3]) * 60 + Text.ParseDigits(t[|t| - 2..]))
    else None
  }

  // ---- properties of the display ----

  /** Reading the display back gives the elapsed seconds. */
  lemma ReadFormatTime(seconds: nat)
    ensures ReadTime(FormatTime(seconds)) == Some(seconds)
  {
    Text.ParseDecimal(seconds / 60);
  }

  /** Distinct elapsed times are displayed differently. */
  lemma FormatTimeInjective(a: nat, b: nat)
    ensures a != b ==> FormatTime(a) != FormatTime(b)
  {
    ReadFormatTime(a);
    ReadFormatTime(b);
  }

  /** The display after every reset. */
  lemma FormatZero()
    ensures FormatTime(0) == "0:00"
  {
  }
}
