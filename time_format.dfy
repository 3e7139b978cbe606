/**
 * The `m:ss` clock text shown by the puzzle countdown and by the game-room clocks.
 * Both pages carry the same `formatTime` helper (src/pages/Puzzle.tsx:236-240 and
 * src/pages/GameRoom.tsx:376-380); it is defined once here.
 */
module TimeFormat {
  import opened Common

  /** `secs.toString().padStart(2, '0')` for a seconds value below 60. */
  function PadTwo(secs: nat): (r: string)
    requires secs < 60
    ensures |r| == 2
    ensures forall i :: 0 <= i < 2 ==> IsDigit(r[i])
  {
    if secs < 10 then "0" + Digits(secs)
    else
      assert |Digits(secs / 10)| == 1;
      Digits(secs)
  }

  /** `formatTime(seconds)`: whole minutes, a colon, then the remaining seconds on two digits. */
  function FormatTime(seconds: nat): (r: string)
    ensures |r| >= 4 && r[|r| - 3] == ':'
    ensures forall i :: 0 <= i < |r| && i != |r| - 3 ==> IsDigit(r[i])
    ensures r[..|r| - 3] == Digits(seconds / 60)
    ensures r[|r| - 2..] == PadTwo(seconds % 60)
  {
    Digits(seconds / 60) + ":" + PadTwo(seconds % 60)
  }

  /** Reads `m:ss` back as a number of seconds; `None` for any other text. */
  function ParseTime(t: string): Option<nat>
  {
    if |t| >= 4 && t[|t| - 3] == ':' && (forall i :: 0 <= i < |t| && i != |t| - 3 ==> IsDigit(t[i])) then
      Some(ParseDigits(t[..|t| - 3]) * 60 + ParseDigits(t[|t| - 2..]))
    else
      None
  }

  lemma {:induction false} ParsePadTwo(secs: nat)
    requires secs < 60
    ensures ParseDigits(PadTwo(secs)) == secs
  {
    ParseDigitsOfDigits(secs);
    if secs < 10 {
      var d := Digits(secs);
      assert d == [DigitChar(secs)];
      assert PadTwo(secs) == ['0', DigitChar(secs)];
      LeadingZero(DigitChar(secs));
      assert ParseDigits([DigitChar(secs)]) == secs;
    }
  }

  /** The clock text determines the seconds it shows: reading it back gives the same count. */
  lemma {:induction false} FormatTimeRoundTrip(seconds: nat)
    ensures ParseTime(FormatTime(seconds)) == Some(seconds)
  {
    var t := FormatTime(seconds);
    ParseDigitsOfDigits(seconds / 60);
    ParsePadTwo(seconds % 60);
    assert t[..|t| - 3] == Digits(seconds / 60);
    assert t[|t| - 2..] == PadTwo(seconds % 60);
  }

  /** Distinct second counts are never shown as the same text. */
  lemma FormatTimeInjective(a: nat, b: nat)
    requires FormatTime(a) == FormatTime(b)
    ensures a == b
  {
    FormatTimeRoundTrip(a);
    FormatTimeRoundTrip(b);
  }
}
