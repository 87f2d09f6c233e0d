/** The package driver `RegloIccPump` (reglo_icc_pump/_driver.py): a session
    with one pump over a serial port, with per-channel stall detection. */
module Driver {
  import opened PumpTypes
  import opened Transport
  import opened Commands
  import opened Codec
  import opened StallTracker
  import opened Session
  import opened Polling
  import opened Setup

  /** `time.monotonic()`: the readings it will give, in milliseconds; the last
      one repeats once the others are used up. */
  class Clock {
    var readings: Ticks

    ghost predicate Valid()
      reads this
    {
      forall i, j :: 0 <= i <= j < |readings| ==> readings[i] <= readings[j]
    }

    constructor (script: Ticks)
      requires forall i, j :: 0 <= i <= j < |script| ==> script[i] <= script[j]
      ensures Valid() && readings == script
    {
      readings := script;
    }

    method Monotonic() returns (now: int)
      requires Valid()
      modifies this
      ensures Valid()
      ensures now == Now(old(readings)) && readings == Tick(old(readings))
      ensures forall i :: 0 <= i < |readings| ==> now <= readings[i]
    {
      now := readings[0];
      if |readings| > 1 {
        readings := readings[1..];
      }
    }
  }

  /** The part of `is_running(ch)` after a `+` and an odometer reading: the
      clock, the stall check, and `_on_stall_detection_detected` on a stall. */
  method CheckStall(port: Port, clock: Clock, ch: int, addr: int, t: Track, reading: int) returns (s: Probe)
    requires clock.Valid()
    modifies port, clock
    ensures clock.Valid()
    ensures s == Polled(ch, addr, t, Poll(reading, Now(old(clock.readings))), NthReply(old(port.replies), 0),
                        NthReply(old(port.replies), 1))
    ensures |s.cmds| >= 2 && s.cmds[..2] == [AskStatus, AskOdometer] && s.observed.Some?
    ensures port.written == old(port.written) + PollFramesOf(ch, addr, s.cmds[2..])
    ensures port.replies == Drop(old(port.replies), |s.cmds| - 2)
    ensures clock.readings == Tick(old(clock.readings))
  {
    ghost var s0, w0 := port.replies, port.written;
    var now := clock.Monotonic();
    var p := Poll(reading, now);
    if reading != t.lastOdo {
      s := Probe(Ok(true), Track(reading, now), [AskStatus, AskOdometer], Some(p));
    } else if now - t.stamp < StallThresholdMs {
      s := Probe(Ok(true), t, [AskStatus, AskOdometer], Some(p));
    } else {
      var stopped := PerformCommand(port, StopCmd(ch, addr));
      OneFrame(ch, addr, StopChannel);
      RestReplies(s0);
      if stopped.Some? {
        s := Probe(Err(stopped.value), t, [AskStatus, AskOdometer, StopChannel], Some(p));
        assert s.cmds[2..] == [StopChannel];
      } else {
        ghost var w1 := port.written;
        var alerted := PerformCommand(port, AlertCmd(addr));
        OneFrame(ch, addr, ShowAlert);
        FramesThen(w0, w1, port.written, ch, addr, [StopChannel], [ShowAlert]);
        s := Probe(Err(if alerted.Some? then alerted.value else StallDetectionDetected(ch)), t,
                   [AskStatus, AskOdometer, StopChannel, ShowAlert], Some(p));
        assert s.cmds[2..] == [StopChannel] + [ShowAlert];
      }
    }
  }

  /** `_ask_odometer_val(ch)`. */
  method ReadOdometer(port: Port, ch: int, addr: int) returns (r: Result<int>)
    modifies port
    ensures port.written == old(port.written) + PollFramesOf(ch, addr, [AskOdometer])
    ensures port.replies == Rest(old(port.replies))
    ensures r == OdometerReading(LineText(NthReply(old(port.replies), 0)))
  {
    var q := RunQuery(port, OdometerCmd(ch, addr), [IntField]);
    OneFrame(ch, addr, AskOdometer);
    if q.Err? {
      return Err(q.error);
    }
    r := Ok(q.value[0].i);
  }

  /** The part of `is_running(ch)` after a `+`: the odometer query, then the
      clock and the stall check once the reading parsed. */
  method PollRunning(port: Port, clock: Clock, ch: int, addr: int, t: Track) returns (s: Probe)
    requires clock.Valid()
    modifies port, clock
    ensures clock.Valid()
    ensures s == PollOutcome(ch, addr, t, Ok('+'), OdometerReading(LineText(NthReply(old(port.replies), 0))),
                             NthReply(old(port.replies), 1), NthReply(old(port.replies), 2), Now(old(clock.readings)))
    ensures |s.cmds| >= 2 && s.cmds[0] == AskStatus
    ensures port.written == old(port.written) + PollFramesOf(ch, addr, s.cmds[1..])
    ensures port.replies == Drop(old(port.replies), |s.cmds| - 1)
    ensures clock.readings == if s.observed.Some? then Tick(old(clock.readings)) else old(clock.readings)
  {
    ghost var s0, w0 := port.replies, port.written;
    var reading := ReadOdometer(port, ch, addr);
    RestReplies(s0);
    ghost var w1 := port.written;
    if reading.Err? {
      s := Probe(Err(reading.error), t, [AskStatus, AskOdometer], None);
    } else {
      s := CheckStall(port, clock, ch, addr, t, reading.value);
      NthDrop(s0, 1, 0);
      NthDrop(s0, 1, 1);
    }
    DropDrop(s0, 1, |s.cmds| - 2);
    FramesThen(w0, w1, port.written, ch, addr, [AskOdometer], s.cmds[2..]);
    assert s.cmds[1..] == [AskOdometer] + s.cmds[2..];
  }

  /** `is_running(ch)` on a known channel, given its tracker entry: the status
      query, and on `+` the odometer query and the stall check. */
  method PollChannel(port: Port, clock: Clock, ch: int, addr: int, t: Track) returns (s: Probe)
    requires clock.Valid()
    modifies port, clock
    ensures clock.Valid()
    ensures s == IsRunningStep(ch, addr, t, old(port.replies), Now(old(clock.readings)))
    ensures port.written == old(port.written) + PollFramesOf(ch, addr, s.cmds)
    ensures port.replies == Drop(old(port.replies), |s.cmds|)
    ensures clock.readings == if s.observed.Some? then Tick(old(clock.readings)) else old(clock.readings)
  {
    ghost var s0, w0 := port.replies, port.written;
    var status := RunCmd(port, StatusCmd(ch, addr), false);
    OneFrame(ch, addr, AskStatus);
    RestReplies(s0);
    ghost var w1 := port.written;
    if status.Err? || status.value != '+' {
      s := Probe(if status.Err? then Err(status.error) else Ok(false), t, [AskStatus], None);
    } else {
      s := PollRunning(port, clock, ch, addr, t);
      NthDrop(s0, 1, 0);
      NthDrop(s0, 1, 1);
      NthDrop(s0, 1, 2);
    }
    DropDrop(s0, 1, |s.cmds| - 1);
    FramesThen(w0, w1, port.written, ch, addr, [AskStatus], s.cmds[1..]);
    assert s.cmds == [AskStatus] + s.cmds[1..];
  }

  /** `while self.is_running(ch): pass` for a known channel, given its
      tracker entry; the entry it leaves is returned with the result. */
  method WaitChannel(port: Port, clock: Clock, ch: int, addr: int, t: Track) returns (r: Result<()>, track: Track)
    requires clock.Valid()
    modifies port, clock
    ensures clock.Valid()
    ensures var w := WaitForStop(ch, addr, t, old(port.replies), old(clock.readings));
      && r == w.result && track == w.track
      && port.written == old(port.written) + PollFramesOf(ch, addr, w.cmds)
      && port.replies == Drop(old(port.replies), |w.cmds|)
      && clock.readings == w.ticks
  {
    ghost var s0, w0, k0 := port.replies, port.written, clock.readings;
    ghost var cmds: seq<PollCmd> := [];
    ghost var polls: seq<Poll> := [];
    track := t;
    assert After([], [], WaitForStop(ch, addr, t, s0, k0)) == WaitForStop(ch, addr, t, s0, k0);
    while true
      invariant clock.Valid()
      invariant port.written == w0 + PollFramesOf(ch, addr, cmds)
      invariant port.replies == Drop(s0, |cmds|)
      invariant WaitForStop(ch, addr, t, s0, k0) == After(cmds, polls, WaitForStop(ch, addr, track, port.replies, clock.readings))
      decreases |port.replies|
    {
      ghost var before, ks, w1 := port.replies, clock.readings, port.written;
      var s := PollChannel(port, clock, ch, addr, track);
      WaitStep(ch, addr, track, before, ks);
      FramesThen(w0, w1, port.written, ch, addr, cmds, s.cmds);
      DropDrop(s0, |cmds|, |s.cmds|);
      if s.answer != Ok(true) {
        r := if s.answer.Err? then Err(s.answer.error) else Ok(());
        track := s.track;
        return;
      }
      AfterAfter(cmds, polls, s.cmds, [s.observed.value], WaitForStop(ch, addr, s.track, port.replies, clock.readings));
      cmds, polls, track := cmds + s.cmds, polls + [s.observed.value], s.track;
    }
  }

  /** The two exchanges `_on_stall_detection_detected` makes before raising. */
  function StallExchanges(ch: int, addr: int): seq<Exchange> {
    [Command(StopCmd(ch, addr)), Command(AlertCmd(addr))]
  }

  /** The seven exchanges of `pump_vol`: stop, then direction, mode, speed
      source, volume, rate (each a one-field reply) and start. */
  function PumpVolExchanges(ch: int, d: PumpDirection, vol: Sci, rate: Sci, addr: int): (xs: seq<Exchange>)
    ensures |xs| == 7
  {
    [Command(StopCmd(ch, addr)), Command(DirectionCmd(ch, d, addr)), Command(VolTimeModeCmd(ch, addr)),
     Command(RateModeCmd(ch, addr)), Query(VolumeCmd(ch, addr, vol), [StrField]),
     Query(RateCmd(ch, addr, rate), [StrField]), Command(StartCmd(ch, addr))]
  }

  /** Aspirating runs the same exchanges as dispensing except the direction
      command, which differs. */
  lemma AspirateMirrorsDispense(ch: int, d: PumpDirection, vol: Sci, rate: Sci, addr: int)
    ensures var a, b := PumpVolExchanges(ch, d, vol, rate, addr), PumpVolExchanges(ch, Opposite(d), vol, rate, addr);
      && (forall i :: 0 <= i < 7 && i != 1 ==> a[i] == b[i])
      && a[1] != b[1]
  {
    if DirectionCmd(ch, d, addr) == DirectionCmd(ch, Opposite(d), addr) {
      DirectionCmdInjective(ch, d, Opposite(d), addr);
    }
  }

  /** `stop(None)`: one stop per channel, in the order of the channel list. */
  function StopAllExchanges(cs: seq<int>, addr: int): (xs: seq<Exchange>)
    ensures |xs| == |cs| && forall i :: 0 <= i < |cs| ==> xs[i] == Command(StopCmd(cs[i], addr))
  {
    seq(|cs|, i requires 0 <= i < |cs| => Command(StopCmd(cs[i], addr)))
  }

  /** The whole of `wait_for_stop(None)`: its result, the tracker entries
      left, the frames written, the number of replies read and the clock
      readings left. */
  datatype AllWait = AllWait(result: Result<()>, odo: map<int, Track>, frames: seq<string>, used: nat, ticks: Ticks)

  /** Frames written after frames already written. */
  lemma WrittenThen(w0: seq<string>, w1: seq<string>, w2: seq<string>, a: seq<string>, b: seq<string>)
    requires w1 == w0 + a && w2 == w1 + b
    ensures w2 == w0 + (a + b)
  {
    assert w0 + a + b == w0 + (a + b);
  }

  /** Waits already made, put in front of the rest. */
  function Behind(frames: seq<string>, used: nat, a: AllWait): (b: AllWait)
    ensures b.result == a.result && b.odo == a.odo && b.ticks == a.ticks
    ensures b.frames == frames + a.frames && b.used == used + a.used
  {
    AllWait(a.result, a.odo, frames + a.frames, used + a.used, a.ticks)
  }

  lemma BehindBehind(f1: seq<string>, u1: nat, f2: seq<string>, u2: nat, a: AllWait)
    ensures Behind(f1, u1, Behind(f2, u2, a)) == Behind(f1 + f2, u1 + u2, a)
  {
    assert f1 + (f2 + a.frames) == (f1 + f2) + a.frames;
  }

  /** `for ch_no_ in self.channel_nos: self.wait_for_stop(ch_no_)`: each
      channel in turn from its own tracker entry, up to the first error. The
      entries of channels outside the list are left alone, and exactly one
      reply is read per frame written. */
  function WaitAll(cs: seq<int>, addr: int, odo: map<int, Track>, script: seq<Reply>, ks: Ticks): (a: AllWait)
    requires forall c :: c in cs ==> c in odo
    ensures forall c :: c in a.odo <==> c in odo
    ensures forall c :: c in odo && c !in cs ==> a.odo[c] == odo[c]
    ensures |a.frames| == a.used
    decreases |cs|
  {
    if cs == [] then AllWait(Ok(()), odo, [], 0, ks)
    else
      var w := WaitForStop(cs[0], addr, odo[cs[0]], script, ks);
      var odo1 := odo[cs[0] := w.track];
      var here := PollFramesOf(cs[0], addr, w.cmds);
      if w.result.Err? then AllWait(w.result, odo1, here, |w.cmds|, w.ticks)
      else Behind(here, |w.cmds|, WaitAll(cs[1..], addr, odo1, Drop(script, |w.cmds|), w.ticks))
  }

  /** Taking the next channel of `wait_for_stop(None)`. */
  lemma WaitAllStep(cs: seq<int>, i: nat, addr: int, odo: map<int, Track>, script: seq<Reply>, ks: Ticks)
    requires i < |cs| && forall c :: c in cs ==> c in odo
    ensures var w := WaitForStop(cs[i], addr, odo[cs[i]], script, ks);
      var odo1 := odo[cs[i] := w.track];
      var here := PollFramesOf(cs[i], addr, w.cmds);
      WaitAll(cs[i..], addr, odo, script, ks) ==
        if w.result.Err? then AllWait(w.result, odo1, here, |w.cmds|, w.ticks)
        else Behind(here, |w.cmds|, WaitAll(cs[i + 1..], addr, odo1, Drop(script, |w.cmds|), w.ticks))
  {
    assert cs[i..][0] == cs[i] && cs[i..][1..] == cs[i + 1..];
  }

  /** The single-channel waits of `wait_for_stop(None)`, in the order of the
      list: each starts from the tracker entries, replies and clock readings
      the earlier ones left, and the list ends with the first that fails. */
  ghost function ChannelWaits(cs: seq<int>, addr: int, odo: map<int, Track>, script: seq<Reply>, ks: Ticks): (ws: seq<Wait>)
    requires forall c :: c in cs ==> c in odo
    ensures |ws| <= |cs|
    decreases |cs|
  {
    if cs == [] then []
    else
      var w := WaitForStop(cs[0], addr, odo[cs[0]], script, ks);
      if w.result.Err? then [w]
      else [w] + ChannelWaits(cs[1..], addr, odo[cs[0] := w.track], Drop(script, |w.cmds|), w.ticks)
  }

  /** The replies read by the first k of the waits. */
  ghost function Spent(ws: seq<Wait>, k: nat): nat
    requires k <= |ws|
  {
    if k == 0 then 0 else Spent(ws, k - 1) + |ws[k - 1].cmds|
  }

  lemma {:induction false} SpentAfter(w: Wait, ws: seq<Wait>, k: nat)
    requires k <= |ws|
    ensures Spent([w] + ws, k + 1) == |w.cmds| + Spent(ws, k)
  {
    if k > 0 {
      SpentAfter(w, ws, k - 1);
      assert ([w] + ws)[k] == ws[k - 1];
    }
  }

  lemma SliceAfter(a: seq<string>, b: seq<string>, lo: nat, hi: nat)
    requires lo <= hi <= |b|
    ensures (a + b)[|a| + lo..|a| + hi] == b[lo..hi]
  {
    assert forall k :: lo <= k < hi ==> (a + b)[|a| + k] == b[k];
  }

  /** The i-th wait of ws, for channel ch, in the frames written and the
      replies read: its frames come right after those of the earlier waits
      and are its own commands for ch, the first a status query; if it
      returned normally, the reply to its last frame said "not running". */
  ghost predicate PolledUntilStopped(frames: seq<string>, script: seq<Reply>, ws: seq<Wait>, i: nat, ch: int, addr: int)
    requires i < |ws|
  {
    && Spent(ws, i) + |ws[i].cmds| <= |frames|
    && frames[Spent(ws, i)..Spent(ws, i) + |ws[i].cmds|] == PollFramesOf(ch, addr, ws[i].cmds)
    && |ws[i].cmds| >= 1 && ws[i].cmds[0] == AskStatus
    && (ws[i].result.Ok? ==> StoppedAck(NthReply(script, Spent(ws, i) + |ws[i].cmds| - 1)))
  }

  /** The first channel's wait, at the head of the frames. */
  lemma FirstPolled(ch: int, addr: int, t: Track, script: seq<Reply>, ks: Ticks, ws: seq<Wait>, rest: seq<string>)
    requires ws != [] && ws[0] == WaitForStop(ch, addr, t, script, ks)
    ensures PolledUntilStopped(PollFramesOf(ch, addr, ws[0].cmds) + rest, script, ws, 0, ch, addr)
  {
    WaitStartsWithStatus(ch, addr, t, script, ks);
    WaitEndsStopped(ch, addr, t, script, ks);
    var here := PollFramesOf(ch, addr, ws[0].cmds);
    assert (here + rest)[0..|here|] == here;
  }

  /** A later channel's wait, moved behind the frames and replies of the first. */
  lemma LaterPolled(w: Wait, ws: seq<Wait>, here: seq<string>, rest: seq<string>, script: seq<Reply>, i: nat, ch: int, addr: int)
    requires 1 <= i <= |ws| && |here| == |w.cmds|
    requires PolledUntilStopped(rest, Drop(script, |w.cmds|), ws, i - 1, ch, addr)
    ensures PolledUntilStopped(here + rest, script, [w] + ws, i, ch, addr)
  {
    var v, lo := ws[i - 1], Spent(ws, i - 1);
    var hi := lo + |v.cmds|;
    assert ([w] + ws)[i] == v;
    SpentAfter(w, ws, i - 1);
    assert Spent([w] + ws, i) == |here| + lo;
    SliceAfter(here, rest, lo, hi);
    assert (here + rest)[|here| + lo..|here| + hi] == PollFramesOf(ch, addr, v.cmds);
    NthDrop(script, |w.cmds|, hi - 1);
  }

  /** The waits of a wait over all channels: every one but the last returned
      normally, the last one's result is the whole result, it returns
      normally only when there is one wait per channel, and the replies
      read are those the waits read. */
  ghost predicate EndsAtFirstFailure(a: AllWait, ws: seq<Wait>, n: nat) {
    && (forall i :: 0 <= i < |ws| - 1 ==> ws[i].result.Ok?)
    && a.result == (if ws == [] then Ok(()) else ws[|ws| - 1].result)
    && (a.result.Ok? ==> |ws| == n)
    && a.used == Spent(ws, |ws|)
  }

  /** A first wait that returned normally, put in front of the rest. */
  lemma OkThenRest(w: Wait, here: seq<string>, rest: AllWait, ws: seq<Wait>, n: nat)
    requires w.result.Ok? && EndsAtFirstFailure(rest, ws, n)
    ensures EndsAtFirstFailure(Behind(here, |w.cmds|, rest), [w] + ws, n + 1)
  {
    var ws1 := [w] + ws;
    SpentAfter(w, ws, |ws|);
    if ws != [] {
      assert ws1[|ws1| - 1] == ws[|ws| - 1];
    } else {
      match w.result.value { case () => }
    }
    forall i | 0 <= i < |ws1| - 1 ensures ws1[i].result.Ok? {
      if i > 0 {
        assert ws1[i] == ws[i - 1];
      }
    }
  }

  /** How `wait_for_stop(None)` ends: it returns normally only when the wait
      for every channel of the list did; otherwise with the error of the
      first channel whose wait failed, after which no channel is waited
      for. The replies read are those its channels' waits read. */
  lemma {:induction false} WaitAllFirstFailure(cs: seq<int>, addr: int, odo: map<int, Track>, script: seq<Reply>, ks: Ticks)
    requires forall c :: c in cs ==> c in odo
    ensures var a, ws := WaitAll(cs, addr, odo, script, ks), ChannelWaits(cs, addr, odo, script, ks);
      && (forall i :: 0 <= i < |ws| - 1 ==> ws[i].result.Ok?)
      && a.result == (if ws == [] then Ok(()) else ws[|ws| - 1].result)
      && (a.result.Ok? ==> |ws| == |cs|)
      && a.used == Spent(ws, |ws|)
    decreases |cs|
  {
    var a, ws := WaitAll(cs, addr, odo, script, ks), ChannelWaits(cs, addr, odo, script, ks);
    FirstFailureHolds(cs, addr, odo, script, ks);
    assert EndsAtFirstFailure(a, ws, |cs|);
  }

  lemma {:induction false} FirstFailureHolds(cs: seq<int>, addr: int, odo: map<int, Track>, script: seq<Reply>, ks: Ticks)
    requires forall c :: c in cs ==> c in odo
    ensures EndsAtFirstFailure(WaitAll(cs, addr, odo, script, ks), ChannelWaits(cs, addr, odo, script, ks), |cs|)
    decreases |cs|
  {
    if cs != [] {
      var w := WaitForStop(cs[0], addr, odo[cs[0]], script, ks);
      var here := PollFramesOf(cs[0], addr, w.cmds);
      if w.result.Ok? {
        var odo1, s1 := odo[cs[0] := w.track], Drop(script, |w.cmds|);
        FirstFailureHolds(cs[1..], addr, odo1, s1, w.ticks);
        OkThenRest(w, here, WaitAll(cs[1..], addr, odo1, s1, w.ticks), ChannelWaits(cs[1..], addr, odo1, s1, w.ticks), |cs| - 1);
      } else {
        var ws := ChannelWaits(cs, addr, odo, script, ks);
        assert ws == [w];
        assert Spent(ws, 1) == Spent(ws, 0) + |w.cmds|;
      }
    }
  }

  /** `wait_for_stop(None)` waits for the channels one after the other, in
      the order of the list: the frames are those of each channel's wait in
      turn, each polling its channel until a status reply said "not
      running" before the next channel's first frame. */
  lemma {:induction false} WaitAllInOrder(cs: seq<int>, addr: int, odo: map<int, Track>, script: seq<Reply>, ks: Ticks)
    requires forall c :: c in cs ==> c in odo
    ensures var a, ws := WaitAll(cs, addr, odo, script, ks), ChannelWaits(cs, addr, odo, script, ks);
      forall i :: 0 <= i < |ws| ==> PolledUntilStopped(a.frames, script, ws, i, cs[i], addr)
    decreases |cs|
  {
    if cs != [] {
      var w := WaitForStop(cs[0], addr, odo[cs[0]], script, ks);
      var here := PollFramesOf(cs[0], addr, w.cmds);
      var a := WaitAll(cs, addr, odo, script, ks);
      var ws := ChannelWaits(cs, addr, odo, script, ks);
      if w.result.Ok? {
        var odo1, s1 := odo[cs[0] := w.track], Drop(script, |w.cmds|);
        var rest := WaitAll(cs[1..], addr, odo1, s1, w.ticks);
        var ws1 := ChannelWaits(cs[1..], addr, odo1, s1, w.ticks);
        WaitAllInOrder(cs[1..], addr, odo1, s1, w.ticks);
        assert ws == [w] + ws1 && a.frames == here + rest.frames;
        FirstPolled(cs[0], addr, odo[cs[0]], script, ks, ws, rest.frames);
        forall i | 1 <= i < |ws| ensures PolledUntilStopped(a.frames, script, ws, i, cs[i], addr) {
          assert cs[i] == cs[1..][i - 1];
          LaterPolled(w, ws1, here, rest.frames, script, i, cs[i], addr);
        }
      } else {
        assert ws == [w] && a.frames == here + [];
        FirstPolled(cs[0], addr, odo[cs[0]], script, ks, ws, []);
      }
    }
  }

  /** Partway through `wait_for_stop(None)`: the first i channels were
      waited for, leaving the tracker entries odo, the frames written and
      the replies read. */
  ghost predicate AllMidway(cs: seq<int>, addr: int, odo0: map<int, Track>, whole: AllWait, s0: seq<Reply>, w0: seq<string>,
                            i: nat, odo: map<int, Track>, frames: seq<string>, used: nat,
                            written: seq<string>, replies: seq<Reply>, readings: Ticks)
  {
    && i <= |cs| && (forall c :: c in cs ==> c in odo0) && (forall c :: c in odo <==> c in odo0)
    && written == w0 + frames && replies == Drop(s0, used)
    && whole == Behind(frames, used, WaitAll(cs[i..], addr, odo, replies, readings))
  }

  /** `wait_for_stop(None)` ended with r. */
  ghost predicate AllFailed(whole: AllWait, s0: seq<Reply>, w0: seq<string>,
                            r: Result<()>, odo: map<int, Track>, frames: seq<string>, used: nat,
                            written: seq<string>, replies: seq<Reply>, readings: Ticks)
  {
    && written == w0 + frames && replies == Drop(s0, used)
    && whole == AllWait(r, odo, frames, used, readings)
  }

  /** Past the last channel, the wait made is the whole wait. */
  lemma AllWaitDone(cs: seq<int>, addr: int, odo0: map<int, Track>, whole: AllWait, s0: seq<Reply>, w0: seq<string>,
                    odo: map<int, Track>, frames: seq<string>, used: nat,
                    written: seq<string>, replies: seq<Reply>, readings: Ticks)
    requires AllMidway(cs, addr, odo0, whole, s0, w0, |cs|, odo, frames, used, written, replies, readings)
    ensures AllFailed(whole, s0, w0, Ok(()), odo, frames, used, written, replies, readings)
  {
    assert cs[|cs|..] == [];
    assert frames + [] == frames;
  }

  /** The state after one more channel of `wait_for_stop(None)` whose wait
      w succeeded, on plain values. */
  lemma AllStepped(cs: seq<int>, addr: int, odo0: map<int, Track>, whole: AllWait, s0: seq<Reply>, w0: seq<string>,
                   i: nat, odo: map<int, Track>, frames: seq<string>, used: nat,
                   w1: seq<string>, s1: seq<Reply>, k1: Ticks, w: Wait,
                   written: seq<string>, replies: seq<Reply>, readings: Ticks)
    requires i < |cs| && AllMidway(cs, addr, odo0, whole, s0, w0, i, odo, frames, used, w1, s1, k1)
    requires w.result.Ok? && written == w1 + PollFramesOf(cs[i], addr, w.cmds)
    requires replies == Drop(s1, |w.cmds|) && readings == w.ticks
    requires WaitAll(cs[i..], addr, odo, s1, k1)
          == Behind(PollFramesOf(cs[i], addr, w.cmds), |w.cmds|, WaitAll(cs[i + 1..], addr, odo[cs[i] := w.track], replies, readings))
    ensures AllMidway(cs, addr, odo0, whole, s0, w0, i + 1, odo[cs[i] := w.track],
                      frames + PollFramesOf(cs[i], addr, w.cmds), used + |w.cmds|, written, replies, readings)
  {
    var here := PollFramesOf(cs[i], addr, w.cmds);
    var odo1 := odo[cs[i] := w.track];
    DropDrop(s0, used, |w.cmds|);
    WrittenThen(w0, w1, written, frames, here);
    assert cs[i] in odo0;
    assert forall c :: c in odo1 <==> c in odo0;
    var rest := WaitAll(cs[i + 1..], addr, odo1, replies, readings);
    BehindBehind(frames, used, here, |w.cmds|, rest);
    assert whole == Behind(frames, used, Behind(here, |w.cmds|, rest));
  }

  /** The state after one more channel of `wait_for_stop(None)` whose wait
      w failed, on plain values. */
  lemma AllStopped(cs: seq<int>, addr: int, odo0: map<int, Track>, whole: AllWait, s0: seq<Reply>, w0: seq<string>,
                   i: nat, odo: map<int, Track>, frames: seq<string>, used: nat,
                   w1: seq<string>, s1: seq<Reply>, k1: Ticks, w: Wait,
                   written: seq<string>, replies: seq<Reply>, readings: Ticks)
    requires i < |cs| && AllMidway(cs, addr, odo0, whole, s0, w0, i, odo, frames, used, w1, s1, k1)
    requires written == w1 + PollFramesOf(cs[i], addr, w.cmds)
    requires replies == Drop(s1, |w.cmds|) && readings == w.ticks
    requires WaitAll(cs[i..], addr, odo, s1, k1)
          == AllWait(w.result, odo[cs[i] := w.track], PollFramesOf(cs[i], addr, w.cmds), |w.cmds|, w.ticks)
    ensures AllFailed(whole, s0, w0, w.result, odo[cs[i] := w.track],
                      frames + PollFramesOf(cs[i], addr, w.cmds), used + |w.cmds|, written, replies, readings)
  {
    DropDrop(s0, used, |w.cmds|);
    WrittenThen(w0, w1, written, frames, PollFramesOf(cs[i], addr, w.cmds));
  }

  /** One channel of `wait_for_stop(None)`. */
  method WaitAllAdvance(port: Port, clock: Clock, cs: seq<int>, addr: int, i: nat, odo: map<int, Track>,
                        ghost odo0: map<int, Track>, ghost whole: AllWait, ghost s0: seq<Reply>, ghost w0: seq<string>,
                        ghost frames: seq<string>, ghost used: nat)
    returns (r: Result<()>, odo1: map<int, Track>, ghost frames1: seq<string>, ghost used1: nat)
    requires clock.Valid() && i < |cs|
    requires AllMidway(cs, addr, odo0, whole, s0, w0, i, odo, frames, used, port.written, port.replies, clock.readings)
    modifies port, clock
    ensures clock.Valid()
    ensures r.Ok? ==> AllMidway(cs, addr, odo0, whole, s0, w0, i + 1, odo1, frames1, used1,
                                port.written, port.replies, clock.readings)
    ensures r.Err? ==> AllFailed(whole, s0, w0, r, odo1, frames1, used1, port.written, port.replies, clock.readings)
  {
    ghost var s1, k1, w1 := port.replies, clock.readings, port.written;
    ghost var w := WaitForStop(cs[i], addr, odo[cs[i]], s1, k1);
    var track;
    r, track := WaitChannel(port, clock, cs[i], addr, odo[cs[i]]);
    WaitAllStep(cs, i, addr, odo, s1, k1);
    if r.Ok? {
      AllStepped(cs, addr, odo0, whole, s0, w0, i, odo, frames, used, w1, s1, k1, w,
                 port.written, port.replies, clock.readings);
    } else {
      AllStopped(cs, addr, odo0, whole, s0, w0, i, odo, frames, used, w1, s1, k1, w,
                 port.written, port.replies, clock.readings);
    }
    odo1 := odo[cs[i] := track];
    frames1, used1 := frames + PollFramesOf(cs[i], addr, w.cmds), used + |w.cmds|;
  }

  /** The loop of `wait_for_stop(None)` over the channels `cs`, the tracker
      entries passed in and returned. */
  method WaitChannels(port: Port, clock: Clock, cs: seq<int>, addr: int, odo0: map<int, Track>)
    returns (r: Result<()>, odo: map<int, Track>)
    requires clock.Valid() && forall c :: c in cs ==> c in odo0
    modifies port, clock
    ensures clock.Valid()
    ensures var a := WaitAll(cs, addr, odo0, old(port.replies), old(clock.readings));
      && r == a.result && odo == a.odo && port.written == old(port.written) + a.frames
      && port.replies == Drop(old(port.replies), a.used) && clock.readings == a.ticks
  {
    ghost var s0, w0 := port.replies, port.written;
    ghost var whole := WaitAll(cs, addr, odo0, s0, clock.readings);
    ghost var frames: seq<string> := [];
    ghost var used: nat := 0;
    assert cs[0..] == cs && w0 + [] == w0;
    odo := odo0;
    var i := 0;
    r := Ok(());
    while i < |cs| && r.Ok?
      invariant i <= |cs| && clock.Valid()
      invariant r.Ok? ==> AllMidway(cs, addr, odo0, whole, s0, w0, i, odo, frames, used,
                                    port.written, port.replies, clock.readings)
      invariant r.Err? ==> AllFailed(whole, s0, w0, r, odo, frames, used, port.written, port.replies, clock.readings)
    {
      r, odo, frames, used := WaitAllAdvance(port, clock, cs, addr, i, odo, odo0, whole, s0, w0, frames, used);
      i := i + 1;
    }
    if r.Ok? {
      AllWaitDone(cs, addr, odo0, whole, s0, w0, odo, frames, used, port.written, port.replies, clock.readings);
      r := Ok(());
    }
  }

  /** What follows a full run: the channel's tracker entry is reset and, when
      blocking, the wait for the channel to stop starts from that fresh entry
      on the replies left by the run. */
  ghost predicate ResetThenWait(ch: int, addr: int, blocking: bool,
                                s1: seq<Reply>, w1: seq<string>, k0: Ticks, odo0: map<int, Track>,
                                r: Result<()>, s: seq<Reply>, w: seq<string>, k: Ticks, odo: map<int, Track>)
  {
    if !blocking then
      r == Ok(()) && w == w1 && s == s1 && k == k0 && odo == odo0[ch := Fresh]
    else
      var wt := WaitForStop(ch, addr, Fresh, s1, k0);
      && r == wt.result && w == w1 + PollFramesOf(ch, addr, wt.cmds)
      && s == Drop(s1, |wt.cmds|) && k == wt.ticks && odo == odo0[ch := wt.track]
  }

  /** A run of exchanges up to the first failure, then the reset and the wait
      once the whole run went through. */
  ghost predicate RunThenWait(xs: seq<Exchange>, ch: int, addr: int, blocking: bool,
                              s0: seq<Reply>, w0: seq<string>, k0: Ticks, odo0: map<int, Track>,
                              r: Result<()>, s: seq<Reply>, w: seq<string>, k: Ticks, odo: map<int, Track>)
  {
    var o := RunAll(xs, s0);
    if o.error.Some? then
      r == Err(o.error.value) && w == w0 + FramesOf(xs[..o.sent]) && s == Drop(s0, o.sent) && k == k0 && odo == odo0
    else
      ResetThenWait(ch, addr, blocking, Drop(s0, |xs|), w0 + FramesOf(xs), k0, odo0, r, s, w, k, odo)
  }

  /** The outcome of `pump_vol` once the direction and the channel are valid:
      its seven exchanges, then the reset and the wait. */
  ghost predicate PumpedVolume(ch: int, d: PumpDirection, vol: Sci, rate: Sci, addr: int, blocking: bool,
                               s0: seq<Reply>, w0: seq<string>, k0: Ticks, odo0: map<int, Track>,
                               r: Result<()>, s: seq<Reply>, w: seq<string>, k: Ticks, odo: map<int, Track>)
  {
    RunThenWait(PumpVolExchanges(ch, d, vol, rate, addr), ch, addr, blocking, s0, w0, k0, odo0, r, s, w, k, odo)
  }

  /** `_init_channel_odo(ch)` and, when blocking, `wait_for_stop(ch)`; the
      tracker entries are passed in and returned. */
  method ResetAndWait(port: Port, clock: Clock, ch: int, addr: int, blocking: bool,
                      odo0: map<int, Track>) returns (r: Result<()>, odo: map<int, Track>)
    requires ch in odo0
    requires clock.Valid()
    modifies port, clock
    ensures clock.Valid()
    ensures forall c :: c in odo <==> c in odo0
    ensures ResetThenWait(ch, addr, blocking, old(port.replies), old(port.written), old(clock.readings), odo0,
                          r, port.replies, port.written, clock.readings, odo)
  {
    odo := odo0[ch := Fresh];
    if blocking {
      var track;
      r, track := WaitChannel(port, clock, ch, addr, Fresh);
      odo := odo[ch := track];
    } else {
      r := Ok(());
    }
  }

  /** The exchanges, then the reset and the wait once they all went through. */
  method RunAndWait(port: Port, clock: Clock, xs: seq<Exchange>, ch: int, addr: int, blocking: bool,
                    odo0: map<int, Track>) returns (r: Result<()>, odo: map<int, Track>)
    requires ch in odo0
    requires clock.Valid()
    modifies port, clock
    ensures clock.Valid()
    ensures forall c :: c in odo <==> c in odo0
    ensures RunThenWait(xs, ch, addr, blocking, old(port.replies), old(port.written), old(clock.readings), odo0,
                        r, port.replies, port.written, clock.readings, odo)
  {
    var e := RunExchanges(port, xs);
    if e.Some? {
      r, odo := Err(e.value), odo0;
    } else {
      assert xs[..|xs|] == xs;
      r, odo := ResetAndWait(port, clock, ch, addr, blocking, odo0);
    }
  }

  // ---------------------------------------------------------------------
  // Construction

  /** The whole of the package `__init__`, for the caller's expected serial
      number, dispense directions and tubing diameters (items in dictionary
      order; no dictionary is an empty one): identification, then the rest. */
  function PumpStartup(addr: int, expected: Option<string>, dirItems: seq<(int, DirectionArg)>,
                       tubing: seq<(int, int)>, script: seq<Reply>): Staged<Startup>
  {
    var id := Identify(addr, expected, script);
    if id.result.Err? then Staged(Err(id.result.error), id.cmds)
    else Prefixed(id.cmds, Configure(addr, id.result.value, dirItems, tubing, Drop(script, |id.cmds|)))
  }

  /** The rest of `__init__` once the pump is identified: the channel list,
      the directions (a value naming no direction raises before any tubing
      exchange), the tubing loop starting from no diameters, and
      `_ask_pump_info`. */
  function Configure(addr: int, id: Identity, dirItems: seq<(int, DirectionArg)>,
                     tubing: seq<(int, int)>, script: seq<Reply>): Staged<Startup>
  {
    var cs := Channels(id.channelCount);
    var conv := ConvertDirs(dirItems);
    if conv.Err? then Staged(Err(conv.error), [])
    else
      var tb := TubingAll(cs, addr, tubing, map[], script);
      if tb.result.Err? then Staged(Err(tb.result.error), tb.cmds)
      else
        var info := InfoReply(LineText(NthReply(script, |tb.cmds|)));
        var cmds := tb.cmds + [PumpInfoCmd(addr)];
        if info.Err? then Staged(Err(info.error), cmds)
        else
          var dirs := DefaultDirs(cs) + conv.value;
          var u := Settings(cs, id.serialNo, info.value.modelNo, info.value.swVer, info.value.headCode, dirs);
          Staged(Ok(Startup(u, tb.result.value)), cmds)
  }

  /** The value of a successful configuration, assembled from its stages. */
  lemma ConfigureParts(addr: int, id: Identity, dirItems: seq<(int, DirectionArg)>,
                       tubing: seq<(int, int)>, script: seq<Reply>)
    requires Configure(addr, id, dirItems, tubing, script).result.Ok?
    ensures ConvertDirs(dirItems).Ok?
      && var cs := Channels(id.channelCount);
      && var tb := TubingAll(cs, addr, tubing, map[], script);
      && tb.result.Ok?
      && var info := InfoReply(LineText(NthReply(script, |tb.cmds|)));
      && info.Ok?
      && var dirs := DefaultDirs(cs) + ConvertDirs(dirItems).value;
      && var u := Settings(cs, id.serialNo, info.value.modelNo, info.value.swVer, info.value.headCode, dirs);
      && Configure(addr, id, dirItems, tubing, script)
         == Staged(Ok(Startup(u, tb.result.value)), tb.cmds + [PumpInfoCmd(addr)])
  {
  }

  /** A successful start-up leaves channels 1..n, each with a dispense
      direction, the expected serial number if one was given, and a diameter
      for exactly the channels the caller named, all of them known. */
  lemma StartupSettled(addr: int, expected: Option<string>, dirItems: seq<(int, DirectionArg)>,
                       tubing: seq<(int, int)>, script: seq<Reply>)
    requires PumpStartup(addr, expected, dirItems, tubing, script).result.Ok?
    ensures var u := PumpStartup(addr, expected, dirItems, tubing, script).result.value;
      && u.settings.channelNos == Channels(|u.settings.channelNos|)
      && CountReply(LineText(NthReply(script, 1))).Ok?
      && u.settings.channelNos == Channels(CountReply(LineText(NthReply(script, 1))).value)
      && (expected.Some? ==> u.settings.serialNo == expected.value)
      && u.settings.serialNo == Strip(LineText(NthReply(script, 0)))
      && (forall c :: c in u.settings.channelNos ==> c in u.settings.dispenseDirs)
      && u.settings.dispenseDirs == DefaultDirs(u.settings.channelNos) + ConvertDirs(dirItems).value
      && u.tubingIds.Keys == KeysOf(tubing)
      && (forall c :: c in u.tubingIds ==> c in u.settings.channelNos)
  {
    var id := Identify(addr, expected, script);
    var rest := Drop(script, |id.cmds|);
    ConfigureParts(addr, id.result.value, dirItems, tubing, rest);
    var cs := Channels(id.result.value.channelCount);
    var none: map<int, real> := map[];
    var tb := TubingAll(cs, addr, tubing, none, rest);
    TubingAllKeys(cs, addr, tubing, none, rest);
    assert none.Keys + KeysOf(tubing) == KeysOf(tubing);
    var info := InfoReply(LineText(NthReply(rest, |tb.cmds|))).value;
    SettledParts(id.result.value.channelCount, id.result.value.serialNo, info, ConvertDirs(dirItems).value,
                 tubing, tb.result.value);
  }

  /** What the object's invariant needs of a successful start-up. */
  lemma StartupIsSettled(addr: int, expected: Option<string>, dirItems: seq<(int, DirectionArg)>,
                         tubing: seq<(int, int)>, script: seq<Reply>)
    requires PumpStartup(addr, expected, dirItems, tubing, script).result.Ok?
    ensures Settled(PumpStartup(addr, expected, dirItems, tubing, script).result.value)
  {
    StartupSettled(addr, expected, dirItems, tubing, script);
  }

  /** A successful start-up identified the pump first, with the serial
      number, channel count and addressing commands, and asked for its
      model last. */
  lemma StartupCommands(addr: int, expected: Option<string>, dirItems: seq<(int, DirectionArg)>,
                        tubing: seq<(int, int)>, script: seq<Reply>)
    requires PumpStartup(addr, expected, dirItems, tubing, script).result.Ok?
    ensures var cmds := PumpStartup(addr, expected, dirItems, tubing, script).cmds;
      && |cmds| >= 4 && cmds[..3] == [SerialNoCmd(addr), ChannelCountCmd(addr), InitCmd(addr)]
      && cmds[|cmds| - 1] == PumpInfoCmd(addr)
  {
    var id := Identify(addr, expected, script);
    var rest := Drop(script, |id.cmds|);
    ConfigureParts(addr, id.result.value, dirItems, tubing, rest);
    var conf := Configure(addr, id.result.value, dirItems, tubing, rest);
    var cmds := id.cmds + conf.cmds;
    assert cmds[..3] == id.cmds;
  }

  /** The package `__init__` after the pump is identified; the start-up's
      commands are ghost. */
  method ConfigurePump(port: Port, addr: int, id: Identity, dirItems: seq<(int, DirectionArg)>,
                       tubing: seq<(int, int)>) returns (r: Result<Startup>)
    modifies port
    ensures var st := Configure(addr, id, dirItems, tubing, old(port.replies));
      && r == st.result && port.written == old(port.written) + Frames(st.cmds)
      && port.replies == Drop(old(port.replies), |st.cmds|)
  {
    ghost var s0, w0 := port.replies, port.written;
    var cs := Channels(id.channelCount);
    var conv := ConvertDirs(dirItems);
    if conv.Err? {
      r := Err(conv.error);
      assert Frames([]) == [] && w0 + [] == w0;
    } else {
      ghost var tb := TubingAll(cs, addr, tubing, map[], s0);
      var ids := SetTubingIds(port, cs, addr, tubing, map[]);
      if ids.Err? {
        r := Err(ids.error);
      } else {
        ghost var w1 := port.written;
        var info := AskPumpInfo(port, addr);
        NthDrop(s0, |tb.cmds|, 0);
        DropDrop(s0, |tb.cmds|, 1);
        WrittenAfter(w0, w1, port.written, tb.cmds, [PumpInfoCmd(addr)]);
        if info.Err? {
          r := Err(info.error);
        } else {
          var dirs := DefaultDirs(cs) + conv.value;
          var u := Settings(cs, id.serialNo, info.value.modelNo, info.value.swVer, info.value.headCode, dirs);
          r := Ok(Startup(u, ids.value));
        }
      }
    }
  }

  /** The package `__init__` after the port and the address are stored. */
  method StartPump(port: Port, addr: int, expected: Option<string>, dirItems: seq<(int, DirectionArg)>,
                   tubing: seq<(int, int)>) returns (r: Result<Startup>)
    modifies port
    ensures var st := PumpStartup(addr, expected, dirItems, tubing, old(port.replies));
      && r == st.result && port.written == old(port.written) + Frames(st.cmds)
      && port.replies == Drop(old(port.replies), |st.cmds|)
    ensures r.Ok? ==> Settled(r.value)
  {
    ghost var s0, w0 := port.replies, port.written;
    var id := IdentifyPump(port, addr, expected);
    if id.result.Err? {
      r := Err(id.result.error);
    } else {
      ghost var w1 := port.written;
      ghost var conf := Configure(addr, id.result.value, dirItems, tubing, port.replies);
      r := ConfigurePump(port, addr, id.result.value, dirItems, tubing);
      WrittenAfter(w0, w1, port.written, id.cmds, conf.cmds);
      DropDrop(s0, |id.cmds|, |conf.cmds|);
      if r.Ok? {
        StartupIsSettled(addr, expected, dirItems, tubing, s0);
      }
    }
  }

  /** A session with one pump. */
  class Pump {
    const port: Port
    const clock: Clock
    const addr: int
    var channelNos: seq<int>
    var serialNo: string
    var modelNo: string
    var swVer: string
    var headCode: string
    var dispenseDirs: map<int, PumpDirection>
    var tubingIds: map<int, real>
    /** `_last_odo_val` and `_last_odo_val_tstamp`, one entry per channel. */
    var odo: map<int, Track>

    ghost predicate Valid()
      reads this, clock
    {
      && channelNos == Channels(|channelNos|)
      && (forall c :: c in odo <==> c in channelNos)
      && (forall c :: c in channelNos ==> c in dispenseDirs)
      && (forall c :: c in tubingIds ==> c in channelNos)
      && clock.Valid()
    }

    ghost function Config(): Settings
      reads this
    {
      Settings(channelNos, serialNo, modelNo, swVer, headCode, dispenseDirs)
    }

    /** The object before `__init__` has asked the pump anything. */
    constructor (port: Port, clock: Clock, addr: int)
      requires clock.Valid()
      ensures Valid()
      ensures this.port == port && this.clock == clock && this.addr == addr
      ensures channelNos == [] && odo == map[] && dispenseDirs == map[] && tubingIds == map[]
    {
      this.port := port;
      this.clock := clock;
      this.addr := addr;
      channelNos := [];
      serialNo := "";
      modelNo := "";
      swVer := "";
      headCode := "";
      dispenseDirs := map[];
      tubingIds := map[];
      odo := map[];
    }

    /** The package `__init__` on the object the constructor left: on
        success the pump's settings and diameters are those of the start-up
        and every channel's tracker entry is fresh; on failure, where the
        source raises out of its constructor, nothing of the object changes. */
    method Init(expected: Option<string>, dirItems: seq<(int, DirectionArg)>, tubing: seq<(int, int)>)
      returns (r: Result<()>)
      requires Valid()
      modifies this, port
      ensures Valid()
      ensures var st := PumpStartup(addr, expected, dirItems, tubing, old(port.replies));
        && (r.Ok? <==> st.result.Ok?) && (st.result.Err? ==> r == Err(st.result.error))
        && port.written == old(port.written) + Frames(st.cmds) && port.replies == Drop(old(port.replies), |st.cmds|)
        && (st.result.Ok? ==> Config() == st.result.value.settings && tubingIds == st.result.value.tubingIds)
      ensures r.Ok? ==> forall c :: c in odo ==> odo[c] == Fresh
      ensures r.Err? ==> Config() == old(Config()) && tubingIds == old(tubingIds) && odo == old(odo)
    {
      ghost var s0 := port.replies;
      var st := StartPump(port, addr, expected, dirItems, tubing);
      if st.Err? {
        r := Err(st.error);
      } else {
        Adopt(st.value);
        r := Ok(());
      }
    }

    /** The fields `__init__` sets, from a settled start-up. */
    method Adopt(s: Startup)
      requires Settled(s) && clock.Valid()
      modifies this
      ensures Valid() && Config() == s.settings && tubingIds == s.tubingIds
      ensures forall c :: c in odo ==> odo[c] == Fresh
    {
      var u := s.settings;
      channelNos, serialNo, modelNo, swVer, headCode := u.channelNos, u.serialNo, u.modelNo, u.swVer, u.headCode;
      dispenseDirs, tubingIds := u.dispenseDirs, s.tubingIds;
      odo := map c | c in u.channelNos :: Fresh;
    }

    /** `stop(ch_no)` for one channel: validated, then `{ch}I{addr}`. */
    method StopChannel(ch: int) returns (r: Result<()>)
      requires Valid()
      modifies port
      ensures ch !in channelNos ==> r == Err(InvalidChannel(ch))
      ensures ch !in channelNos ==> port.written == old(port.written) && port.replies == old(port.replies)
      ensures ch in channelNos ==> port.written == old(port.written) + [Frame(StopCmd(ch, addr))]
      ensures ch in channelNos ==> port.replies == Rest(old(port.replies))
      ensures ch in channelNos ==> r == OrOk(Check(Command(StopCmd(ch, addr)), NthReply(old(port.replies), 0)))
    {
      if ch !in channelNos {
        return Err(InvalidChannel(ch));
      }
      var e := Perform(port, Command(StopCmd(ch, addr)));
      r := OrOk(e);
    }

    /** `stop(None)`: every channel in ascending order, up to the first failure. */
    method StopAll() returns (r: Result<()>)
      requires Valid()
      modifies port
      ensures var xs := StopAllExchanges(channelNos, addr);
        && Ended(xs, old(port.replies), old(port.written), port.written, port.replies)
        && r == OrOk(RunAll(xs, old(port.replies)).error)
    {
      var xs := StopAllExchanges(channelNos, addr);
      StartRun(xs, port.replies, port.written);
      var i := 0;
      while i < |channelNos|
        invariant i <= |channelNos|
        invariant Midway(xs, i, old(port.replies), old(port.written), port.written, port.replies)
      {
        ghost var before := port.replies;
        var stopped := StopChannel(channelNos[i]);
        StepRun(xs, i, old(port.replies), old(port.written), old(port.written) + FramesOf(xs[..i]), before,
                Check(xs[i], NthReply(before, 0)));
        if stopped.Err? {
          return stopped;
        }
        i := i + 1;
      }
      FinishRun(xs, old(port.replies), old(port.written), port.written, port.replies);
      r := Ok(());
    }

    /** `stop(ch_no=None)`. */
    method Stop(ch: Option<int>) returns (r: Result<()>)
      requires Valid()
      modifies port
      ensures ch.Some? && ch.value !in channelNos ==>
        r == Err(InvalidChannel(ch.value)) && port.written == old(port.written) && port.replies == old(port.replies)
      ensures ch.Some? && ch.value in channelNos ==>
        && port.written == old(port.written) + [Frame(StopCmd(ch.value, addr))]
        && port.replies == Rest(old(port.replies))
        && r == OrOk(Check(Command(StopCmd(ch.value, addr)), NthReply(old(port.replies), 0)))
      ensures ch.None? ==> var xs := StopAllExchanges(channelNos, addr);
        && Ended(xs, old(port.replies), old(port.written), port.written, port.replies)
        && r == OrOk(RunAll(xs, old(port.replies)).error)
    {
      if ch.None? {
        r := StopAll();
      } else {
        r := StopChannel(ch.value);
      }
    }

    /** `is_running(ch)`: an unknown channel is refused before anything is
        written; otherwise one poll, whose tracker entry is kept for the channel. */
    method IsRunning(ch: int) returns (r: Result<bool>)
      requires Valid()
      modifies this, port, clock
      ensures Valid() && Config() == old(Config()) && tubingIds == old(tubingIds)
      ensures ch !in channelNos ==>
        && r == Err(InvalidChannel(ch)) && odo == old(odo)
        && port.written == old(port.written) && port.replies == old(port.replies)
        && clock.readings == old(clock.readings)
      ensures ch in channelNos ==> var s := IsRunningStep(ch, addr, old(odo)[ch], old(port.replies), Now(old(clock.readings)));
        && r == s.answer && odo == old(odo)[ch := s.track]
        && port.written == old(port.written) + PollFramesOf(ch, addr, s.cmds)
        && port.replies == Drop(old(port.replies), |s.cmds|)
        && clock.readings == if s.observed.Some? then Tick(old(clock.readings)) else old(clock.readings)
    {
      if ch !in channelNos {
        r := Err(InvalidChannel(ch));
      } else {
        var s := PollChannel(port, clock, ch, addr, odo[ch]);
        odo := odo[ch := s.track];
        r := s.answer;
      }
    }

    /** `wait_for_stop(ch)` for one channel: `is_running` until it answers
        anything but "running"; an unknown channel is refused by the first poll. */
    method WaitForStopChannel(ch: int) returns (r: Result<()>)
      requires Valid()
      modifies this, port, clock
      ensures Valid() && Config() == old(Config()) && tubingIds == old(tubingIds)
      ensures ch !in channelNos ==>
        && r == Err(InvalidChannel(ch)) && odo == old(odo)
        && port.written == old(port.written) && port.replies == old(port.replies)
        && clock.readings == old(clock.readings)
      ensures ch in channelNos ==> var w := WaitForStop(ch, addr, old(odo)[ch], old(port.replies), old(clock.readings));
        && r == w.result && odo == old(odo)[ch := w.track]
        && port.written == old(port.written) + PollFramesOf(ch, addr, w.cmds)
        && port.replies == Drop(old(port.replies), |w.cmds|)
        && clock.readings == w.ticks
    {
      if ch !in channelNos {
        r := Err(InvalidChannel(ch));
      } else {
        var track;
        r, track := WaitChannel(port, clock, ch, addr, odo[ch]);
        odo := odo[ch := track];
      }
    }

    /** `wait_for_stop(None)`: every channel in the order of the channel
        list, up to the first error. */
    method WaitForStopAll() returns (r: Result<()>)
      requires Valid()
      modifies this, port, clock
      ensures Valid() && Config() == old(Config()) && tubingIds == old(tubingIds)
      ensures var a := WaitAll(channelNos, addr, old(odo), old(port.replies), old(clock.readings));
        && r == a.result && odo == a.odo && port.written == old(port.written) + a.frames
        && port.replies == Drop(old(port.replies), a.used) && clock.readings == a.ticks
    {
      r, odo := WaitChannels(port, clock, channelNos, addr, odo);
    }

    /** `wait_for_stop(ch_no=None)`. */
    method AwaitStop(ch: Option<int>) returns (r: Result<()>)
      requires Valid()
      modifies this, port, clock
      ensures Valid() && Config() == old(Config()) && tubingIds == old(tubingIds)
      ensures ch.Some? && ch.value !in channelNos ==>
        && r == Err(InvalidChannel(ch.value)) && odo == old(odo)
        && port.written == old(port.written) && port.replies == old(port.replies)
        && clock.readings == old(clock.readings)
      ensures ch.Some? && ch.value in channelNos ==>
        var w := WaitForStop(ch.value, addr, old(odo)[ch.value], old(port.replies), old(clock.readings));
        && r == w.result && odo == old(odo)[ch.value := w.track]
        && port.written == old(port.written) + PollFramesOf(ch.value, addr, w.cmds)
        && port.replies == Drop(old(port.replies), |w.cmds|) && clock.readings == w.ticks
      ensures ch.None? ==> var a := WaitAll(channelNos, addr, old(odo), old(port.replies), old(clock.readings));
        && r == a.result && odo == a.odo && port.written == old(port.written) + a.frames
        && port.replies == Drop(old(port.replies), a.used) && clock.readings == a.ticks
    {
      if ch.None? {
        r := WaitForStopAll();
      } else {
        r := WaitForStopChannel(ch.value);
      }
    }

    /** The tail of `pump_vol` once the direction is converted and the
        channel known, for its exchanges `xs`: the run, the channel's tracker
        entry reset, and the wait. */
    method RunOnChannel(xs: seq<Exchange>, ch: int, blocking: bool) returns (r: Result<()>)
      requires Valid() && ch in channelNos
      modifies this, port, clock
      ensures Valid() && Config() == old(Config()) && tubingIds == old(tubingIds)
      ensures RunThenWait(xs, ch, addr, blocking, old(port.replies), old(port.written),
                          old(clock.readings), old(odo), r, port.replies, port.written, clock.readings, odo)
    {
      r, odo := RunAndWait(port, clock, xs, ch, addr, blocking, odo);
    }

    /** `pump_vol(ch, direction, vol, rate, blocking)`: `PumpDirection(direction)`
        raises first, then `stop(ch)` refuses an unknown channel, both before
        anything is written. */
    method PumpVol(ch: int, direction: DirectionArg, vol: Sci, rate: Sci, blocking: bool) returns (r: Result<()>)
      requires Valid()
      modifies this, port, clock
      ensures Valid() && Config() == old(Config()) && tubingIds == old(tubingIds)
      ensures ToDirection(direction).Err? ==> r == Err(InvalidDirection(direction.text))
      ensures ToDirection(direction).Ok? && ch !in channelNos ==> r == Err(InvalidChannel(ch))
      ensures ToDirection(direction).Err? || ch !in channelNos ==>
        && odo == old(odo) && clock.readings == old(clock.readings)
        && port.written == old(port.written) && port.replies == old(port.replies)
      ensures ToDirection(direction).Ok? && ch in channelNos ==>
        PumpedVolume(ch, ToDirection(direction).value, vol, rate, addr, blocking, old(port.replies), old(port.written),
                     old(clock.readings), old(odo), r, port.replies, port.written, clock.readings, odo)
    {
      var dir := ToDirection(direction);
      if dir.Err? {
        r := Err(dir.error);
      } else if ch !in channelNos {
        r := Err(InvalidChannel(ch));
      } else {
        r := RunOnChannel(PumpVolExchanges(ch, dir.value, vol, rate, addr), ch, blocking);
      }
    }

    /** `dispense_vol`: the channel is checked first, then `pump_vol` in the
        channel's dispense direction. */
    method DispenseVol(ch: int, vol: Sci, rate: Sci, blocking: bool) returns (r: Result<()>)
      requires Valid()
      modifies this, port, clock
      ensures Valid() && Config() == old(Config()) && tubingIds == old(tubingIds)
      ensures ch !in channelNos ==>
        && r == Err(InvalidChannel(ch)) && odo == old(odo) && clock.readings == old(clock.readings)
        && port.written == old(port.written) && port.replies == old(port.replies)
      ensures ch in channelNos ==>
        PumpedVolume(ch, dispenseDirs[ch], vol, rate, addr, blocking, old(port.replies), old(port.written),
                     old(clock.readings), old(odo), r, port.replies, port.written, clock.readings, odo)
    {
      if ch !in channelNos {
        r := Err(InvalidChannel(ch));
      } else {
        r := PumpVol(ch, Member(dispenseDirs[ch]), vol, rate, blocking);
      }
    }

    /** `aspirate_vol`: the channel is checked first, then `pump_vol` opposite
        to the channel's dispense direction. */
    method AspirateVol(ch: int, vol: Sci, rate: Sci, blocking: bool) returns (r: Result<()>)
      requires Valid()
      modifies this, port, clock
      ensures Valid() && Config() == old(Config()) && tubingIds == old(tubingIds)
      ensures ch !in channelNos ==>
        && r == Err(InvalidChannel(ch)) && odo == old(odo) && clock.readings == old(clock.readings)
        && port.written == old(port.written) && port.replies == old(port.replies)
      ensures ch in channelNos ==>
        PumpedVolume(ch, Opposite(dispenseDirs[ch]), vol, rate, addr, blocking, old(port.replies), old(port.written),
                     old(clock.readings), old(odo), r, port.replies, port.written, clock.readings, odo)
    {
      if ch !in channelNos {
        r := Err(InvalidChannel(ch));
      } else {
        r := PumpVol(ch, Member(Opposite(dispenseDirs[ch])), vol, rate, blocking);
      }
    }

    /** `show_msg`: `{addr}DA` and the first 15 characters of the message. */
    method ShowMsg(msg: string) returns (r: Result<()>)
      modifies port
      ensures port.written == old(port.written) + [Frame(DisplayCmd(addr, msg))]
      ensures port.replies == Rest(old(port.replies))
      ensures r == OrOk(Check(Command(DisplayCmd(addr, msg)), NthReply(old(port.replies), 0)))
    {
      var e := Perform(port, Command(DisplayCmd(addr, msg)));
      r := OrOk(e);
    }

    /** `set_tubing_id` with the diameter already in hundredths of a mm, for a
        known channel only; the value read back is stored for that channel
        only when both exchanges succeeded. */
    method SetTubingId(ch: int, hundredths: int) returns (r: Result<real>)
      requires Valid()
      modifies this, port
      ensures Valid() && Config() == old(Config()) && odo == old(odo)
      ensures var e := TubingEntry(channelNos, addr, ch, hundredths, old(port.replies));
        && r == e.result && tubingIds == Stored(old(tubingIds), ch, r)
        && port.written == old(port.written) + Frames(e.cmds) && port.replies == Drop(old(port.replies), |e.cmds|)
    {
      var e := SetTubingEntry(port, channelNos, addr, ch, hundredths);
      r := e.result;
      tubingIds := Stored(tubingIds, ch, r);
    }
  }
}
