/** The exact command texts the driver sends, before `_send_cmd` appends "\r".
    Channel numbers and the pump address are printed with `str`. */
module Commands {
  import opened PumpTypes
  import opened Numerals
  import opened Codec

  function Num(i: int): string {
    IntToString(i)
  }

  /** `{addr}~1`: put the pump under channel addressing. */
  function InitCmd(addr: int): string {
    Num(addr) + "~1"
  }

  /** `{addr}xA`: ask for the number of channels. */
  function ChannelCountCmd(addr: int): string {
    Num(addr) + "xA"
  }

  /** `{addr}xS`: ask for the serial number. */
  function SerialNoCmd(addr: int): string {
    Num(addr) + "xS"
  }

  /** `{addr}#`: ask for model, software version and head code. */
  function PumpInfoCmd(addr: int): string {
    Num(addr) + "#"
  }

  /** `{ch}++{addr}`: ask for the tubing inner diameter of a channel. */
  function TubingQueryCmd(ch: int, addr: int): string {
    Num(ch) + "++" + Num(addr)
  }

  /** `{ch}++{addr}{h:04d}`: set the tubing inner diameter, in hundredths of a mm.
      The setting command is the query followed by the padded value. */
  function TubingSetCmd(ch: int, addr: int, hundredths: int): string {
    Num(ch) + "++" + Num(addr) + Pad04(hundredths)
  }

  /** A diameter from 0.00 to 99.99 mm goes out as exactly four digits after
      the query text, and those digits read back as the value sent. */
  lemma TubingSetCmdShape(ch: int, addr: int, hundredths: int)
    requires 0 <= hundredths < 10000
    ensures var c, q := TubingSetCmd(ch, addr, hundredths), TubingQueryCmd(ch, addr);
      && |c| == |q| + 4 && c[..|q|] == q
      && AllDigits(c[|q|..]) && DigitsValue(c[|q|..]) == hundredths
  {
    var c, q := TubingSetCmd(ch, addr, hundredths), TubingQueryCmd(ch, addr);
    Pad04Value(hundredths);
    assert c == q + Pad04(hundredths);
    assert c[|q|..] == Pad04(hundredths);
  }

  /** `{ch}J{addr}` turns the rotor clockwise, `{ch}K{addr}` counter-clockwise. */
  function DirectionCmd(ch: int, d: PumpDirection, addr: int): string {
    Num(ch) + (if d == CW then "J" else "K") + Num(addr)
  }

  /** `{ch}O{addr}`: volume/time mode. */
  function VolTimeModeCmd(ch: int, addr: int): string {
    Num(ch) + "O" + Num(addr)
  }

  /** `{ch}xff{addr}1`: derive the speed from the flow rate. */
  function RateModeCmd(ch: int, addr: int): string {
    Num(ch) + "xff" + Num(addr) + "1"
  }

  /** `{ch}vv{addr}<vol>`: the volume in mL, type-2 encoded. */
  function VolumeCmd(ch: int, addr: int, vol: Sci): string {
    Num(ch) + "vv" + Num(addr) + FormatVolType2(vol)
  }

  /** `{ch}ff{addr}<rate>`: the flow rate in mL/min, type-2 encoded. */
  function RateCmd(ch: int, addr: int, rate: Sci): string {
    Num(ch) + "ff" + Num(addr) + FormatVolType2(rate)
  }

  /** `{ch}H{addr}`: start. */
  function StartCmd(ch: int, addr: int): string {
    Num(ch) + "H" + Num(addr)
  }

  /** `{ch}I{addr}`: stop. */
  function StopCmd(ch: int, addr: int): string {
    Num(ch) + "I" + Num(addr)
  }

  /** `{ch}E{addr}`: is the channel running? */
  function StatusCmd(ch: int, addr: int): string {
    Num(ch) + "E" + Num(addr)
  }

  /** `{ch}xXX{addr}`: read the channel's odometer. */
  function OdometerCmd(ch: int, addr: int): string {
    Num(ch) + "xXX" + Num(addr)
  }

  /** Characters of a message the display command keeps. */
  const DisplayWidth: nat := 15

  function Min(a: nat, b: nat): nat {
    if a < b then a else b
  }

  /** `{addr}DA{msg[:15]}`: show a message; longer text is cut to its first 15
      characters, shorter text is sent whole. */
  function DisplayCmd(addr: int, msg: string): (c: string)
    ensures |c| == |Num(addr)| + 2 + Min(|msg|, DisplayWidth)
    ensures c[..|Num(addr)| + 2] == Num(addr) + "DA"
    ensures c[|Num(addr)| + 2..] <= msg
    ensures |msg| <= DisplayWidth ==> c == Num(addr) + "DA" + msg
  {
    Num(addr) + "DA" + msg[..Min(|msg|, DisplayWidth)]
  }

  /** The four-character text shown on the display when a stall is detected:
      the bytes 0x46 0x55 0x43 0x4B decoded as ASCII. */
  const StallAlert: string := [0x46 as char, 0x55 as char, 0x43 as char, 0x4B as char]

  /** The display command written on a stall. */
  function AlertCmd(addr: int): string {
    Num(addr) + "DA" + StallAlert
  }

  /** The alert fits the display, so it is shown whole: the stall command is
      the display command for the alert text. */
  lemma AlertIsDisplayed(addr: int)
    ensures AlertCmd(addr) == DisplayCmd(addr, StallAlert)
  {
    assert |StallAlert| == 4;
  }

  /** The six commands `pump_vol` sends after any stop: direction, mode,
      speed source, volume, rate, start. */
  function PumpVolCmds(ch: int, d: PumpDirection, vol: Sci, rate: Sci, addr: int): (cs: seq<string>)
    ensures |cs| == 6 && cs[0] == DirectionCmd(ch, d, addr) && cs[5] == StartCmd(ch, addr)
  {
    [DirectionCmd(ch, d, addr), VolTimeModeCmd(ch, addr), RateModeCmd(ch, addr),
     VolumeCmd(ch, addr, vol), RateCmd(ch, addr, rate), StartCmd(ch, addr)]
  }

  /** Reading the direction letter back: the two directions give different commands. */
  lemma DirectionCmdInjective(ch: int, d: PumpDirection, e: PumpDirection, addr: int)
    requires DirectionCmd(ch, d, addr) == DirectionCmd(ch, e, addr)
    ensures d == e
  {
    var k := |Num(ch)|;
    assert DirectionCmd(ch, d, addr)[k] == (if d == CW then 'J' else 'K');
    assert DirectionCmd(ch, e, addr)[k] == (if e == CW then 'J' else 'K');
  }

  /** The volume command is its prefix followed by the encoded volume, and
      that text reads back as the volume sent. */
  lemma VolumeCmdReadsBack(ch: int, addr: int, vol: Sci)
    ensures var p, c := Num(ch) + "vv" + Num(addr), VolumeCmd(ch, addr, vol);
      |p| <= |c| && c[..|p|] == p && ParseType2(c[|p|..]) == Some(vol)
  {
    var p, c := Num(ch) + "vv" + Num(addr), VolumeCmd(ch, addr, vol);
    assert c[..|p|] == p && c[|p|..] == FormatVolType2(vol);
    ParseFormatted(vol);
  }

  /** The same for the flow-rate command. */
  lemma RateCmdReadsBack(ch: int, addr: int, rate: Sci)
    ensures var p, c := Num(ch) + "ff" + Num(addr), RateCmd(ch, addr, rate);
      |p| <= |c| && c[..|p|] == p && ParseType2(c[|p|..]) == Some(rate)
  {
    var p, c := Num(ch) + "ff" + Num(addr), RateCmd(ch, addr, rate);
    assert c[..|p|] == p && c[|p|..] == FormatVolType2(rate);
    ParseFormatted(rate);
  }
}
