/** Playback positions and the `m:ss` rendering used by the player's time labels
    (VideoPlayer.formatTime) and by timestamp chat messages
    (ChatSidebar.formatVideoTime); the two are the same expression in the source
    and are modelled once here. */
module MediaTime {
  import opened Text

  /** A playback position in seconds. Media elements and sliders never report a
      negative position. */
  type Seconds = r: real | r >= 0.0

  /** `Math.floor(x)` for x >= 0. */
  function FloorNat(x: Seconds): (n: nat)
    ensures n as real <= x < n as real + 1.0
  {
    x.Floor
  }

  /** JavaScript's `x % 60` on a non-negative number: x minus the largest whole
      multiple of 60 not above it. */
  function Rem60(x: Seconds): (r: Seconds)
    ensures r < 60.0
  {
    x - 60.0 * FloorNat(x / 60.0) as real
  }

  /** `${Math.floor(s / 60)}:${Math.floor(s % 60).toString().padStart(2, "0")}` */
  function FormatTime(s: Seconds): string {
    NatToString(FloorNat(s / 60.0)) + ":" + PadStart2(NatToString(FloorNat(Rem60(s))))
  }

  /** The seconds field of the label is a whole number below 60, and minutes and
      seconds together count exactly the whole seconds elapsed. */
  lemma FieldsOfTime(s: Seconds)
    ensures FloorNat(Rem60(s)) < 60
    ensures FloorNat(s / 60.0) * 60 + FloorNat(Rem60(s)) == FloorNat(s)
  {
    var m := FloorNat(s / 60.0);
    var r := Rem60(s);
    assert m as real * 60.0 <= s;
    assert s == m as real * 60.0 + r;
    var k := FloorNat(r);
    assert (m * 60 + k) as real == m as real * 60.0 + k as real;
  }

  /** Reading the label back: it ends in ':' and two digits, everything before
      the ':' is digits without a leading zero (a lone "0" aside), and
      minutes * 60 + seconds is the whole number of seconds in the position. */
  lemma FormatTimeReadsBack(s: Seconds)
    ensures var t := FormatTime(s);
      && |t| >= 4 && t[|t| - 3] == ':'
      && IsDigits(t[..|t| - 3]) && IsDigits(t[|t| - 2..])
      && (|t| == 4 || t[0] != '0')
      && ParseNat(t[|t| - 2..]) < 60
      && ParseNat(t[..|t| - 3]) * 60 + ParseNat(t[|t| - 2..]) == FloorNat(s)
  {
    FieldsOfTime(s);
    var m := FloorNat(s / 60.0);
    var k := FloorNat(Rem60(s));
    var ms := NatToString(m);
    var ks := PadStart2(NatToString(k));
    PadStart2OfDigit(k);
    ParseNatToString(m);
    var t := FormatTime(s);
    assert t == ms + ":" + ks;
    assert t[..|t| - 3] == ms;
    assert t[|t| - 2..] == ks;
    if m >= 1 {
      NatToStringLeads(m);
      assert t[0] == ms[0];
    }
  }
}
