/** `_seconds_to_timecode`, shared verbatim by both subtitle generators: an
    offset becomes `H:MM:SS.cc`. The formatter the rest of the model uses is
    the corrected one: it rounds the whole offset to centiseconds first and
    works on whole centiseconds, where Dafny's `/` and `%` by a positive
    divisor agree with Python's `//` and `%` also for negative offsets. The
    formatter as written, which pads the seconds to three digits and can
    print a seconds field of 60, is `SecondsToTimecodeAsWritten`. */
module Timecode {
  import opened Text

  const CentisPerHour := 360000
  const CentisPerMinute := 6000

  /** The timecode of an offset given in centiseconds: hours unpadded (with a
      minus sign when the offset is negative, as Python prints a floored
      negative hour), then minutes and seconds as two digits each, then two
      decimals. */
  function Timecode(cs: int): string {
    Compose(cs / CentisPerHour, MinutesField(cs), SecondsField(cs), CentisField(cs))
  }

  /** `int((seconds % 3600) // 60)`. */
  function MinutesField(cs: int): (m: nat)
    ensures m < 60
  {
    (cs % CentisPerHour) / CentisPerMinute
  }

  /** The whole seconds of `seconds % 60`. */
  function SecondsField(cs: int): (s: nat)
    ensures s < 60
  {
    (cs % CentisPerMinute) / 100
  }

  /** The two decimals of `seconds % 60`. */
  function CentisField(cs: int): (c: nat)
    ensures c < 100
  {
    (cs % CentisPerMinute) % 100
  }

  /** A timecode has the `H:MM:SS.cc` shape and reads back as the offset it
      was made from. */
  lemma {:induction false} TimecodeReadsBack(cs: int)
    ensures var r := Timecode(cs);
      && |r| >= 10
      && r[|r| - 9] == ':' && r[|r| - 6] == ':' && r[|r| - 3] == '.'
      && TimecodeValue(r) == Some(cs)
  {
    TimecodeArith(cs);
    ParseTimecode(cs / CentisPerHour, MinutesField(cs), SecondsField(cs), CentisField(cs));
  }

  /** The text of a timecode from its four fields. */
  function Compose(hours: int, minutes: nat, secs: nat, centis: nat): string
    requires minutes < 100 && secs < 100 && centis < 100
  {
    IntToString(hours) + ":" + Pad2(minutes) + ":" + Pad2(secs) + "." + Pad2(centis)
  }

  lemma {:induction false} ParseTimecode(hours: int, minutes: nat, secs: nat, centis: nat)
    requires minutes < 60 && secs < 60 && centis < 100
    ensures var t := Compose(hours, minutes, secs, centis);
      |t| >= 10 && t[|t| - 9] == ':' && t[|t| - 6] == ':' && t[|t| - 3] == '.'
      && TimecodeValue(t) == Some(hours * CentisPerHour + minutes * CentisPerMinute + secs * 100 + centis)
  {
    var h, m, s, c := IntToString(hours), Pad2(minutes), Pad2(secs), Pad2(centis);
    var t := Compose(hours, minutes, secs, centis);
    ParseIntToString(hours);
    var n := |t|;
    assert t == h + ":" + m + ":" + s + "." + c;
    assert n == |h| + 9;
    assert t[..n - 9] == h;
    assert t[n - 8..n - 6] == m;
    assert t[n - 5..n - 3] == s;
    assert t[n - 2..] == c;
  }

  lemma {:induction false} TimecodeArith(cs: int)
    ensures cs == (cs / CentisPerHour) * CentisPerHour + MinutesField(cs) * CentisPerMinute
                  + SecondsField(cs) * 100 + CentisField(cs)
  {
    var h, a := cs / CentisPerHour, cs % CentisPerHour;
    var m, b := a / CentisPerMinute, a % CentisPerMinute;
    assert cs == (h * 60 + m) * CentisPerMinute + b;
    DivModUnique(cs, CentisPerMinute, h * 60 + m, b);
  }

  /** Quotient and remainder are the only pair that rebuilds `x`. */
  lemma {:induction false} DivModUnique(x: int, d: int, q: int, r: int)
    requires d > 0 && 0 <= r < d && x == q * d + r
    ensures x / d == q && x % d == r
  {
    var q', r' := x / d, x % d;
    assert (q - q') * d == r' - r;
    if q - q' >= 1 {
      MulAtLeast(q - q', d);
    } else if q' - q >= 1 {
      MulAtLeast(q' - q, d);
    }
  }

  lemma {:induction false} MulAtLeast(k: int, d: int)
    requires k >= 1 && d > 0
    ensures k * d >= d
  {
  }

  /** Reads a timecode back: the unpadded signed hours, `:`, two minute digits
      below 60, `:`, two second digits below 60, `.`, two centisecond digits.
      None when the text does not have this shape. */
  function TimecodeValue(t: string): Option<int> {
    var n := |t|;
    if n < 10 || t[n - 9] != ':' || t[n - 6] != ':' || t[n - 3] != '.' then None
    else if !(AllDigits(t[n - 8..n - 6]) && AllDigits(t[n - 5..n - 3]) && AllDigits(t[n - 2..])) then None
    else
      var m, s, c := ParseNat(t[n - 8..n - 6]), ParseNat(t[n - 5..n - 3]), ParseNat(t[n - 2..]);
      match ParseInt(t[..n - 9])
      case None => None
      case Some(h) => if m < 60 && s < 60 then Some(h * CentisPerHour + m * CentisPerMinute + s * 100 + c) else None
  }

  /** Two offsets print the same timecode only when they are equal. */
  lemma {:induction false} TimecodeInjective(a: int, b: int)
    requires Timecode(a) == Timecode(b)
    ensures a == b
  {
    TimecodeReadsBack(a);
    TimecodeReadsBack(b);
  }

  /** Seconds rounded to the nearest centisecond (halves upwards). */
  function Centiseconds(seconds: real): (r: int)
    ensures r as real - 0.5 <= seconds * 100.0 < r as real + 0.5
  {
    (seconds * 100.0 + 0.5).Floor
  }

  /** `_seconds_to_timecode(seconds)` as the format intends it: the offset
      rounded to the nearest centisecond, seconds two digits wide. */
  function SecondsToTimecode(seconds: real): string {
    Timecode(Centiseconds(seconds))
  }

  /** The timecode of an offset reads back as the offset, to the nearest
      centisecond. */
  lemma {:induction false} SecondsToTimecodeReadsBack(seconds: real)
    ensures TimecodeValue(SecondsToTimecode(seconds)) == Some(Centiseconds(seconds))
    ensures var c := TimecodeValue(SecondsToTimecode(seconds)).value as real;
      c - 0.5 <= seconds * 100.0 < c + 0.5
  {
    TimecodeReadsBack(Centiseconds(seconds));
  }

  // -----------------------------------------------------------------------
  // The formatter as written
  // -----------------------------------------------------------------------

  /** Python's `x % d` for a positive divisor: the remainder after flooring. */
  function RealMod(x: real, d: real): (r: real)
    requires d > 0.0
    ensures 0.0 <= r < d
  {
    var q := (x / d).Floor;
    FloorScaled(x, d, q);
    x - q as real * d
  }

  lemma {:induction false} FloorScaled(x: real, d: real, q: int)
    requires d > 0.0 && q == (x / d).Floor
    ensures q as real * d <= x < q as real * d + d
  {
    var y, f := x / d, q as real;
    assert y * d == x;
    assert f <= y < f + 1.0;
    var below, above := y - f, f + 1.0 - y;
    assert below >= 0.0 && above > 0.0;
    assert below * d >= 0.0 && above * d > 0.0;
    assert below * d == x - f * d;
    assert above * d == f * d + d - x;
  }

  /** `_seconds_to_timecode` exactly as written: hours and minutes come from
      the unrounded offset, `seconds % 60` is rounded to two decimals on its
      own, and `06.2f` pads it to six characters, three digits before the
      point. */
  function SecondsToTimecodeAsWritten(seconds: real): string {
    var hours := (seconds / 3600.0).Floor;
    var minutes := (RealMod(seconds, 3600.0) / 60.0).Floor;
    var field := Centiseconds(RealMod(seconds, 60.0));
    assert 0 <= minutes < 60;
    assert 0 <= field <= 6000;
    IntToString(hours) + ":" + Pad2(minutes) + ":" + "0" + Pad2(field / 100) + "." + Pad2(field % 100)
  }

  /** As written, no timecode has the `H:MM:SS.cc` shape: the seconds take
      three digits, so none reads back as an offset. */
  lemma {:induction false} AsWrittenNeverReadsBack(seconds: real)
    ensures TimecodeValue(SecondsToTimecodeAsWritten(seconds)) == None
  {
    var hours := (seconds / 3600.0).Floor;
    var minutes := (RealMod(seconds, 3600.0) / 60.0).Floor;
    var field := Centiseconds(RealMod(seconds, 60.0));
    var h, m := IntToString(hours), Pad2(minutes);
    var t := SecondsToTimecodeAsWritten(seconds);
    assert t == h + ":" + m + ":" + "0" + Pad2(field / 100) + "." + Pad2(field % 100);
    assert |t| == |h| + 10;
    assert t[|t| - 9] == m[0];
    assert IsDigit(m[0]);
  }

  /** 3661.5 s, written `1:01:01.50` in the format, comes out as
      `1:01:001.50`. */
  lemma {:induction false} AsWrittenThreeDigitSeconds()
    ensures SecondsToTimecodeAsWritten(3661.5) == "1:01:001.50"
  {
    assert (3661.5 / 3600.0).Floor == 1;
    assert RealMod(3661.5, 3600.0) == 61.5;
    assert (61.5 / 60.0).Floor == 1;
    assert (3661.5 / 60.0).Floor == 61;
    assert RealMod(3661.5, 60.0) == 1.5;
    assert Centiseconds(1.5) == 150;
    assert IntToString(1) == "1";
    assert Pad2(1) == "01" && Pad2(50) == "50";
  }

  /** 59.996 s: the remainder rounds up to a seconds field of 60 while the
      minutes stay at 0. */
  lemma {:induction false} AsWrittenSixtySeconds()
    ensures SecondsToTimecodeAsWritten(59.996) == "0:00:060.00"
  {
    assert (59.996 / 3600.0).Floor == 0;
    assert RealMod(59.996, 3600.0) == 59.996;
    assert (59.996 / 60.0).Floor == 0;
    assert RealMod(59.996, 60.0) == 59.996;
    assert Centiseconds(59.996) == 6000;
    assert IntToString(0) == "0";
    assert Pad2(0) == "00" && Pad2(60) == "60";
  }

  /** The corrected formatter rounds the whole offset first, so 59.996 s
      carries into the minutes. */
  lemma {:induction false} TimecodeCarriesIntoMinutes()
    ensures SecondsToTimecode(59.996) == "0:01:00.00"
  {
    assert Centiseconds(59.996) == 6000;
    TimecodeFields(6000, 0, 1, 0, 0);
    assert IntToString(0) == "0";
    assert Pad2(0) == "00" && Pad2(1) == "01";
  }

  /** The two examples of the timecode format: 0 s and 3661.5 s. */
  lemma {:induction false} TimecodeOfZero()
    ensures SecondsToTimecode(0.0) == "0:00:00.00"
  {
    assert Centiseconds(0.0) == 0;
    assert Timecode(0) == Compose(0, 0, 0, 0);
    assert IntToString(0) == "0";
    assert Pad2(0) == "00";
  }

  lemma {:induction false} TimecodeOfOneHourOneMinute()
    ensures SecondsToTimecode(3661.5) == "1:01:01.50"
  {
    assert Centiseconds(3661.5) == 366150;
    TimecodeFields(366150, 1, 1, 1, 50);
    assert IntToString(1) == "1";
    assert Pad2(1) == "01" && Pad2(50) == "50";
  }

  /** The fields the timecode of `cs` is made of. */
  lemma {:induction false} TimecodeFields(cs: int, hours: int, minutes: nat, secs: nat, centis: nat)
    requires minutes < 60 && secs < 60 && centis < 100
    requires cs == hours * CentisPerHour + minutes * CentisPerMinute + secs * 100 + centis
    ensures Timecode(cs) == Compose(hours, minutes, secs, centis)
  {
    var rest, sc := minutes * CentisPerMinute + secs * 100 + centis, secs * 100 + centis;
    DivModUnique(cs, CentisPerHour, hours, rest);
    DivModUnique(rest, CentisPerMinute, minutes, sc);
    assert cs == (hours * 60 + minutes) * CentisPerMinute + sc;
    DivModUnique(cs, CentisPerMinute, hours * 60 + minutes, sc);
    DivModUnique(sc, 100, secs, centis);
  }

}
