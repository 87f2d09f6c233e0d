/** `is_running` and `wait_for_stop` of the package driver, as functions of
    the replies the pump will give and the readings the clock will give.
    One poll asks the channel's status; a channel that answers "running" also
    has its odometer read and is checked for a stall. */
module Polling {
  import opened PumpTypes
  import opened Transport
  import opened Commands
  import opened StallTracker
  import opened Session

  /** The readings `time.monotonic()` will give, in milliseconds; the last one
      repeats once the others are used up. */
  type Ticks = ks: seq<int> | |ks| >= 1 witness [0]

  function Now(ks: Ticks): int {
    ks[0]
  }

  /** The readings left after one call to the clock. */
  function Tick(ks: Ticks): (rest: Ticks)
    ensures |ks| > 1 ==> rest == ks[1..]
    ensures |ks| == 1 ==> rest == ks
  {
    if |ks| > 1 then ks[1..] else ks
  }

  /** The commands a poll may write: the status query and the odometer
      query, and on a stall the stop and the alert. */
  datatype PollCmd = AskStatus | AskOdometer | StopChannel | ShowAlert

  function PollCmdText(ch: int, addr: int, c: PollCmd): string {
    match c
    case AskStatus => StatusCmd(ch, addr)
    case AskOdometer => OdometerCmd(ch, addr)
    case StopChannel => StopCmd(ch, addr)
    case ShowAlert => AlertCmd(addr)
  }

  /** The frames written for a run of poll commands on channel ch. */
  function PollFramesOf(ch: int, addr: int, cs: seq<PollCmd>): (ws: seq<string>)
    ensures |ws| == |cs|
  {
    seq(|cs|, i requires 0 <= i < |cs| => Frame(PollCmdText(ch, addr, cs[i])))
  }

  lemma PollFramesOfAppend(ch: int, addr: int, a: seq<PollCmd>, b: seq<PollCmd>)
    ensures PollFramesOf(ch, addr, a + b) == PollFramesOf(ch, addr, a) + PollFramesOf(ch, addr, b)
  {
    assert forall i :: 0 <= i < |b| ==> (a + b)[|a| + i] == b[i];
  }

  lemma OneFrame(ch: int, addr: int, c: PollCmd)
    ensures PollFramesOf(ch, addr, [c]) == [Frame(PollCmdText(ch, addr, c))]
  {
  }

  /** Frames written by two runs of poll commands, one after the other. */
  lemma FramesThen(w0: seq<string>, w1: seq<string>, w2: seq<string>, ch: int, addr: int,
                   a: seq<PollCmd>, b: seq<PollCmd>)
    requires w1 == w0 + PollFramesOf(ch, addr, a) && w2 == w1 + PollFramesOf(ch, addr, b)
    ensures w2 == w0 + PollFramesOf(ch, addr, a + b)
  {
    PollFramesOfAppend(ch, addr, a, b);
  }

  /** What one `is_running(ch)` on a valid channel does: its answer, the
      channel's tracker entry afterwards, the commands written (one reply is
      read for each), and the poll it made if it read the odometer and the clock. */
  datatype Probe = Probe(answer: Result<bool>, track: Track, cmds: seq<PollCmd>, observed: Option<Poll>)

  /** `_ask_odometer_val`: the one integer field of the `{ch}xXX{addr}` reply. */
  function OdometerReading(line: string): (r: Result<int>)
    ensures r.Ok? <==> ParseQueryReply(line, [IntField]).Ok?
    ensures r.Err? ==> r.error == ParseQueryReply(line, [IntField]).error
    ensures r.Err? ==> r.error.CommandTimeout? || r.error.InvalidResponse?
    ensures r.Ok? ==> r.value == ParseQueryReply(line, [IntField]).value[0].i
  {
    var q := ParseQueryReply(line, [IntField]);
    if q.Err? then Err(q.error) else Ok(q.value[0].i)
  }

  /** The stop and the alert of `_on_stall_detection_detected`, then its own error. */
  function StallReport(ch: int, addr: int, t: Track, stopReply: Reply, alertReply: Reply, p: Poll): Probe {
    var stop := CommandError(stopReply);
    if stop.Some? then Probe(Err(stop.value), t, [AskStatus, AskOdometer, StopChannel], Some(p))
    else
      var alert := CommandError(alertReply);
      Probe(Err(if alert.Some? then alert.value else StallDetectionDetected(ch)), t,
            [AskStatus, AskOdometer, StopChannel, ShowAlert], Some(p))
  }

  /** `is_running` once the status byte and the odometer reading are known:
      only `+` counts as running, and only then are the odometer and the clock
      read and the stall check made. */
  function PollOutcome(ch: int, addr: int, t: Track, status: Result<char>, reading: Result<int>,
                       stopReply: Reply, alertReply: Reply, now: int): Probe
  {
    if status.Err? then Probe(Err(status.error), t, [AskStatus], None)
    else if status.value != '+' then Probe(Ok(false), t, [AskStatus], None)
    else if reading.Err? then Probe(Err(reading.error), t, [AskStatus, AskOdometer], None)
    else Polled(ch, addr, t, Poll(reading.value, now), stopReply, alertReply)
  }

  /** The stall check on a poll that read the odometer and the clock. */
  function Polled(ch: int, addr: int, t: Track, p: Poll, stopReply: Reply, alertReply: Reply): Probe {
    match Observe(t, p.reading, p.now)
    case Running(u) => Probe(Ok(true), u, [AskStatus, AskOdometer], Some(p))
    case Stall => StallReport(ch, addr, t, stopReply, alertReply, p)
  }

  /** `is_running(ch)` on a valid channel against the replies to come: the
      status byte is read without the success check, the odometer reply is
      the second reply, and a stall's stop and alert take the next two. */
  function IsRunningStep(ch: int, addr: int, t: Track, script: seq<Reply>, now: int): Probe {
    PollOutcome(ch, addr, t, ClassifyAck(AckByte(NthReply(script, 0)), false),
                OdometerReading(LineText(NthReply(script, 1))), NthReply(script, 2), NthReply(script, 3), now)
  }

  /** A poll starts with the status query; it stops the channel and shows the
      alert only after a stall, and "not running" costs one exchange. */
  lemma ProbeCmds(ch: int, addr: int, t: Track, status: Result<char>, reading: Result<int>,
                  stopReply: Reply, alertReply: Reply, now: int)
    ensures var s := PollOutcome(ch, addr, t, status, reading, stopReply, alertReply, now);
      && |s.cmds| >= 1 && s.cmds[0] == AskStatus
      && (s.answer == Ok(false) ==> s.cmds == [AskStatus])
      && (s.answer == Ok(true) ==> s.cmds == [AskStatus, AskOdometer])
      && ((StopChannel in s.cmds || ShowAlert in s.cmds) ==>
            s.observed.Some? && Observe(t, reading.value, now) == Stall)
  {
  }

  /** "Running" is answered exactly when the status byte was `+`, the
      odometer reading parsed, and the tracker did not see a stall; the tracker
      entry changes only then. */
  lemma ProbeRunning(ch: int, addr: int, t: Track, status: Result<char>, reading: Result<int>,
                     stopReply: Reply, alertReply: Reply, now: int)
    ensures var s := PollOutcome(ch, addr, t, status, reading, stopReply, alertReply, now);
      && (s.answer == Ok(true) <==> status == Ok('+') && reading.Ok? && Observe(t, reading.value, now).Running?)
      && (s.answer == Ok(false) <==> status.Ok? && status.value != '+')
      && (s.observed.Some? <==> status == Ok('+') && reading.Ok?)
      && (s.observed.Some? ==> s.observed.value == Poll(reading.value, now))
      && (s.answer == Ok(true) ==> Observe(t, reading.value, now) == Running(s.track))
      && (s.answer != Ok(true) ==> s.track == t)
  {
  }

  /** A stall is found exactly when a poll read the odometer and did not
      answer "running"; the answer is then an error, and StallDetectionDetected
      comes only after the stop and the alert went out. */
  lemma ProbeStall(ch: int, addr: int, t: Track, status: Result<char>, reading: Result<int>,
                   stopReply: Reply, alertReply: Reply, now: int)
    requires status.Err? ==> !status.error.StallDetectionDetected?
    requires reading.Err? ==> !reading.error.StallDetectionDetected?
    ensures var s := PollOutcome(ch, addr, t, status, reading, stopReply, alertReply, now);
      && (s.observed.Some? && s.answer != Ok(true) <==> s.observed.Some? && Observe(t, reading.value, now) == Stall)
      && (s.observed.Some? && s.answer != Ok(true) ==> s.answer.Err?)
      && (s.answer == Err(StallDetectionDetected(ch)) ==>
            && s.observed.Some? && Observe(t, reading.value, now) == Stall
            && s.cmds == [AskStatus, AskOdometer, StopChannel, ShowAlert])
  {
  }

  /** A "running" answer always consumes two replies that were really there:
      the loop of `wait_for_stop` makes progress through a finite script. */
  lemma RunningReadsTwo(ch: int, addr: int, t: Track, script: seq<Reply>, now: int)
    ensures var s := IsRunningStep(ch, addr, t, script, now);
      s.answer == Ok(true) ==> |s.cmds| == 2 && |script| >= 2 && s.observed.Some?
  {
  }

  /** The whole of `wait_for_stop(ch)`: its result, the tracker entry left,
      the commands written (one reply read for each), the clock readings left,
      and the polls that read the odometer, in order. */
  datatype Wait = Wait(result: Result<()>, track: Track, cmds: seq<PollCmd>, ticks: Ticks, polls: seq<Poll>)

  /** `while self.is_running(ch): pass`. */
  function WaitForStop(ch: int, addr: int, t: Track, script: seq<Reply>, ks: Ticks): Wait
    decreases |script|
  {
    var s := IsRunningStep(ch, addr, t, script, Now(ks));
    var result: Result<()> := if s.answer.Err? then Err(s.answer.error) else Ok(());
    if s.answer == Ok(true) then
      RunningReadsTwo(ch, addr, t, script, Now(ks));
      var w := WaitForStop(ch, addr, s.track, Drop(script, 2), Tick(ks));
      Wait(w.result, w.track, s.cmds + w.cmds, w.ticks, [s.observed.value] + w.polls)
    else if s.observed.Some? then Wait(result, s.track, s.cmds, Tick(ks), [s.observed.value])
    else Wait(result, s.track, s.cmds, ks, [])
  }

  /** Polls already made by a wait, put in front of the rest of the wait. */
  function After(cmds: seq<PollCmd>, polls: seq<Poll>, w: Wait): (r: Wait)
    ensures r.result == w.result && r.track == w.track && r.ticks == w.ticks
    ensures r.cmds == cmds + w.cmds && r.polls == polls + w.polls
  {
    Wait(w.result, w.track, cmds + w.cmds, w.ticks, polls + w.polls)
  }

  lemma AfterAfter(c1: seq<PollCmd>, p1: seq<Poll>, c2: seq<PollCmd>, p2: seq<Poll>, w: Wait)
    ensures After(c1, p1, After(c2, p2, w)) == After(c1 + c2, p1 + p2, w)
  {
    assert c1 + (c2 + w.cmds) == (c1 + c2) + w.cmds;
    assert p1 + (p2 + w.polls) == (p1 + p2) + w.polls;
  }

  /** One turn of the wait: a "running" poll read two replies that were there
      and is followed by the rest of the wait from the entry it left; any
      other answer ends the wait with that poll. */
  lemma WaitStep(ch: int, addr: int, t: Track, script: seq<Reply>, ks: Ticks)
    ensures var s := IsRunningStep(ch, addr, t, script, Now(ks));
      var left: Ticks := if s.observed.Some? then Tick(ks) else ks;
      var w := WaitForStop(ch, addr, t, script, ks);
      if s.answer == Ok(true) then
        && |s.cmds| == 2 && |script| >= 2 && s.observed.Some?
        && w == After(s.cmds, [s.observed.value], WaitForStop(ch, addr, s.track, Drop(script, |s.cmds|), left))
      else
        && w.result == (if s.answer.Err? then Err(s.answer.error) else Ok(()))
        && w.track == s.track && w.cmds == s.cmds && w.ticks == left
  {
    RunningReadsTwo(ch, addr, t, script, Now(ks));
  }

  /** The clock readings the first n polls see: one reading per poll. */
  function TakeTicks(ks: Ticks, n: nat): (r: seq<int>)
    ensures |r| == n
  {
    if n == 0 then [] else [Now(ks)] + TakeTicks(Tick(ks), n - 1)
  }

  /** The readings left after n polls. */
  function SkipTicks(ks: Ticks, n: nat): Ticks {
    if n == 0 then ks else SkipTicks(Tick(ks), n - 1)
  }

  /** The times at which a run of polls read the clock. */
  function Times(polls: seq<Poll>): (r: seq<int>)
    ensures |r| == |polls|
  {
    if polls == [] then [] else [polls[0].now] + Times(polls[1..])
  }

  /** `wait_for_stop(ch)` starts with a status query. */
  lemma WaitStartsWithStatus(ch: int, addr: int, t: Track, script: seq<Reply>, ks: Ticks)
    ensures var w := WaitForStop(ch, addr, t, script, ks);
      |w.cmds| >= 1 && w.cmds[0] == AskStatus
  {
    var now := Now(ks);
    var status, reading := ClassifyAck(AckByte(NthReply(script, 0)), false), OdometerReading(LineText(NthReply(script, 1)));
    var s := IsRunningStep(ch, addr, t, script, now);
    ProbeCmds(ch, addr, t, status, reading, NthReply(script, 2), NthReply(script, 3), now);
    WaitStep(ch, addr, t, script, ks);
  }

  /** The commands of one `is_running(ch)` against the replies to come. */
  lemma StepCmds(ch: int, addr: int, t: Track, script: seq<Reply>, now: int)
    ensures var s := IsRunningStep(ch, addr, t, script, now);
      && |s.cmds| >= 1 && s.cmds[0] == AskStatus
      && (s.answer == Ok(false) ==> s.cmds == [AskStatus])
  {
    ProbeCmds(ch, addr, t, ClassifyAck(AckByte(NthReply(script, 0)), false),
              OdometerReading(LineText(NthReply(script, 1))), NthReply(script, 2), NthReply(script, 3), now);
  }

  /** When `wait_for_stop(ch)` returns normally, its last exchange was a
      status query that did not say "running". */
  lemma {:induction false} WaitCmds(ch: int, addr: int, t: Track, script: seq<Reply>, ks: Ticks)
    ensures var w := WaitForStop(ch, addr, t, script, ks);
      |w.cmds| >= 1 && (w.result.Ok? ==> w.cmds[|w.cmds| - 1] == AskStatus)
    decreases |script|
  {
    var s := IsRunningStep(ch, addr, t, script, Now(ks));
    StepCmds(ch, addr, t, script, Now(ks));
    WaitStep(ch, addr, t, script, ks);
    if s.answer == Ok(true) {
      var rest := WaitForStop(ch, addr, s.track, Drop(script, 2), Tick(ks));
      WaitCmds(ch, addr, s.track, Drop(script, 2), Tick(ks));
      Joined(s.cmds, rest.cmds);
    }
  }

  /** The first and last commands of two runs of poll commands, one after the other. */
  lemma Joined(a: seq<PollCmd>, b: seq<PollCmd>)
    requires |a| >= 1 && |b| >= 1
    ensures (a + b)[0] == a[0] && (a + b)[|a + b| - 1] == b[|b| - 1]
  {
  }

  /** A status reply that `is_running` accepts as "not running": a valid
      acknowledgement other than `+`. */
  predicate StoppedAck(r: Reply) {
    var a := AckByte(r);
    a.Some? && a.value in AckBytes && a.value != '+'
  }

  lemma StoppedAckAfterTwo(script: seq<Reply>, k: nat)
    requires StoppedAck(NthReply(Drop(script, 2), k))
    ensures StoppedAck(NthReply(script, 2 + k))
  {
    NthDrop(script, 2, k);
  }

  /** `wait_for_stop(ch)` returns normally only right after a status reply
      that says "not running". */
  lemma {:induction false} WaitEndsStopped(ch: int, addr: int, t: Track, script: seq<Reply>, ks: Ticks)
    ensures var w := WaitForStop(ch, addr, t, script, ks);
      w.result.Ok? ==> |w.cmds| >= 1 && StoppedAck(NthReply(script, |w.cmds| - 1))
    decreases |script|
  {
    var now := Now(ks);
    var status, reading := ClassifyAck(AckByte(NthReply(script, 0)), false), OdometerReading(LineText(NthReply(script, 1)));
    var s := IsRunningStep(ch, addr, t, script, now);
    ProbeRunning(ch, addr, t, status, reading, NthReply(script, 2), NthReply(script, 3), now);
    ProbeCmds(ch, addr, t, status, reading, NthReply(script, 2), NthReply(script, 3), now);
    WaitStep(ch, addr, t, script, ks);
    if s.answer == Ok(true) {
      var rest := WaitForStop(ch, addr, s.track, Drop(script, 2), Tick(ks));
      WaitEndsStopped(ch, addr, s.track, Drop(script, 2), Tick(ks));
      if rest.result.Ok? {
        StoppedAckAfterTwo(script, |rest.cmds| - 1);
        assert |s.cmds + rest.cmds| - 1 == 2 + (|rest.cmds| - 1);
      }
    }
  }

  /** The polls `wait_for_stop(ch)` made, replayed through the stall
      detector from the entry it started with: it returns normally only while
      the detector keeps watching, leaving the detector's entry; a stall can
      only be the last poll and always ends the wait with an error; the
      channel is stopped, and StallDetectionDetected raised, only on a stall. */
  lemma {:induction false} WaitReplay(ch: int, addr: int, t: Track, script: seq<Reply>, ks: Ticks)
    ensures var w := WaitForStop(ch, addr, t, script, ks); var o := Replay(t, w.polls);
      && (o.Watching? ==> o.track == w.track)
      && (o.StalledAt? ==> o.index == |w.polls| - 1 && w.result.Err?)
      && (w.result.Ok? ==> o.Watching?)
      && (w.result == Err(StallDetectionDetected(ch)) ==> o.StalledAt?)
      && (StopChannel in w.cmds ==> o.StalledAt?)
    decreases |script|
  {
    var now := Now(ks);
    var status, reading := ClassifyAck(AckByte(NthReply(script, 0)), false), OdometerReading(LineText(NthReply(script, 1)));
    var s := IsRunningStep(ch, addr, t, script, now);
    ProbeCmds(ch, addr, t, status, reading, NthReply(script, 2), NthReply(script, 3), now);
    ProbeRunning(ch, addr, t, status, reading, NthReply(script, 2), NthReply(script, 3), now);
    ProbeStall(ch, addr, t, status, reading, NthReply(script, 2), NthReply(script, 3), now);
    if s.answer == Ok(true) {
      RunningReadsTwo(ch, addr, t, script, now);
      var p := s.observed.value;
      var rest := WaitForStop(ch, addr, s.track, Drop(script, 2), Tick(ks));
      WaitReplay(ch, addr, s.track, Drop(script, 2), Tick(ks));
      var polls := [p] + rest.polls;
      assert polls[0] == p && polls[1..] == rest.polls;
    } else if s.observed.Some? {
      var p := s.observed.value;
      assert [p][1..] == [];
    }
  }

  /** Every poll of `wait_for_stop(ch)` that read the odometer read the clock
      once, in order, and nothing else did. */
  lemma {:induction false} WaitClock(ch: int, addr: int, t: Track, script: seq<Reply>, ks: Ticks)
    ensures var w := WaitForStop(ch, addr, t, script, ks);
      Times(w.polls) == TakeTicks(ks, |w.polls|) && w.ticks == SkipTicks(ks, |w.polls|)
    decreases |script|
  {
    var now := Now(ks);
    var status, reading := ClassifyAck(AckByte(NthReply(script, 0)), false), OdometerReading(LineText(NthReply(script, 1)));
    var s := IsRunningStep(ch, addr, t, script, now);
    ProbeRunning(ch, addr, t, status, reading, NthReply(script, 2), NthReply(script, 3), now);
    if s.answer == Ok(true) {
      RunningReadsTwo(ch, addr, t, script, now);
      var p := s.observed.value;
      var rest := WaitForStop(ch, addr, s.track, Drop(script, 2), Tick(ks));
      WaitClock(ch, addr, s.track, Drop(script, 2), Tick(ks));
      var polls := [p] + rest.polls;
      assert polls[0] == p && polls[1..] == rest.polls;
    } else if s.observed.Some? {
      var p := s.observed.value;
      assert [p][1..] == [];
    }
  }

  /** A wait that starts from a fresh entry never ends in "stopped" once the
      odometer has read the same value across two seconds of "running"
      polls: it raises instead. */
  lemma FrozenWaitFails(ch: int, addr: int, script: seq<Reply>, ks: Ticks, j: nat)
    requires var w := WaitForStop(ch, addr, Fresh, script, ks);
      && j < |w.polls| && w.polls[0].reading >= 0
      && (forall i :: 0 <= i <= j ==> w.polls[i].reading == w.polls[0].reading)
      && w.polls[j].now - w.polls[0].now >= StallThresholdMs
    ensures WaitForStop(ch, addr, Fresh, script, ks).result.Err?
  {
    var w := WaitForStop(ch, addr, Fresh, script, ks);
    FrozenOdometerStalls(w.polls, j);
    WaitReplay(ch, addr, Fresh, script, ks);
  }
}
