/** The older single-file driver `reglo_icc_pump.py`: the same transport and
    command texts as the package, but no serial-number check, no odometer
    and no stall detection, no `stop`, and a `pump_vol` that neither stops
    nor checks the channel before its six exchanges. */
module LegacyDriver {
  import opened PumpTypes
  import opened Transport
  import opened Commands
  import opened Codec
  import opened Session
  import opened Setup
  import Driver

  // ---------------------------------------------------------------------
  // Status polls

  /** `is_running(ch)` on a known channel: the status byte is read without
      the success check, and only `+` means running. */
  function StatusAnswer(reply: Reply): (r: Result<bool>)
    ensures r.Ok? <==> AckByte(reply).Some? && AckByte(reply).value in AckBytes
    ensures r.Ok? ==> (r.value <==> AckByte(reply) == Some('+'))
    ensures r.Err? ==> r.error == CommandTimeout || r.error == InvalidResponse(UnexpectedAck)
  {
    var a := ClassifyAck(AckByte(reply), false);
    if a.Err? then Err(a.error) else Ok(a.value == '+')
  }

  /** n status commands for channel ch. */
  function StatusPolls(ch: int, addr: int, n: nat): (cs: seq<string>)
    ensures |cs| == n && forall i :: 0 <= i < n ==> cs[i] == StatusCmd(ch, addr)
  {
    seq(n, _ => StatusCmd(ch, addr))
  }

  lemma StatusPollsNext(ch: int, addr: int, n: nat)
    ensures StatusPolls(ch, addr, n + 1) == StatusPolls(ch, addr, n) + [StatusCmd(ch, addr)]
  {
  }

  /** How a wait ended: its result and the number of status polls it made. */
  datatype Polls = Polls(result: Result<()>, count: nat)

  /** `while self.is_running(ch): pass` on a known channel, against the
      replies to come; a read past the last reply times out, so the wait ends. */
  function LegacyWait(script: seq<Reply>): (w: Polls)
    ensures w.count >= 1
    decreases |script|
  {
    var a := StatusAnswer(NthReply(script, 0));
    if a == Ok(true) then
      var w := LegacyWait(Drop(script, 1));
      Polls(w.result, w.count + 1)
    else Polls(if a.Err? then Err(a.error) else Ok(()), 1)
  }

  /** The wait polls for as long as the channel reports running: every
      status before the last said `+`, the last did not, and the wait ends
      with that last answer's error, or with success. */
  lemma {:induction false} LegacyWaitMeaning(script: seq<Reply>)
    ensures var w := LegacyWait(script);
      && (forall i :: 0 <= i < w.count - 1 ==> StatusAnswer(NthReply(script, i)) == Ok(true))
      && var last := StatusAnswer(NthReply(script, w.count - 1));
      && last != Ok(true)
      && w.result == (if last.Err? then Err(last.error) else Ok(()))
    decreases |script|
  {
    if StatusAnswer(NthReply(script, 0)) == Ok(true) {
      var rest := Drop(script, 1);
      LegacyWaitMeaning(rest);
      var w := LegacyWait(rest);
      forall i | 1 <= i < w.count + 1
        ensures NthReply(script, i) == NthReply(rest, i - 1)
      {
        NthDrop(script, 1, i - 1);
      }
    }
  }

  /** The wait loop on a known channel. */
  method WaitStopped(port: Port, ch: int, addr: int) returns (r: Result<()>)
    modifies port
    ensures var w := LegacyWait(old(port.replies));
      && r == w.result && port.written == old(port.written) + Frames(StatusPolls(ch, addr, w.count))
      && port.replies == Drop(old(port.replies), w.count)
  {
    ghost var s0, w0 := port.replies, port.written;
    ghost var n: nat := 0;
    assert Frames(StatusPolls(ch, addr, 0)) == [] && w0 + [] == w0;
    while true
      invariant port.written == w0 + Frames(StatusPolls(ch, addr, n))
      invariant port.replies == Drop(s0, n)
      invariant LegacyWait(s0) == Polls(LegacyWait(port.replies).result, LegacyWait(port.replies).count + n)
      decreases |port.replies|
    {
      ghost var before, w1 := port.replies, port.written;
      var a := RunCmd(port, StatusCmd(ch, addr), false);
      RestReplies(before);
      DropDrop(s0, n, 1);
      StatusPollsNext(ch, addr, n);
      FramesOne(StatusCmd(ch, addr));
      WrittenAfter(w0, w1, port.written, StatusPolls(ch, addr, n), [StatusCmd(ch, addr)]);
      if a != Ok('+') {
        r := if a.Err? then Err(a.error) else Ok(());
        return;
      }
      assert |before| > 0;
      n := n + 1;
    }
  }

  /** `wait_for_stop(None)`: the channels in order, the first failure ending it. */
  function LegacyWaitAll(cs: seq<int>, addr: int, script: seq<Reply>): Staged<()>
    decreases |cs|
  {
    if cs == [] then Staged(Ok(()), [])
    else
      var w := LegacyWait(script);
      var here := StatusPolls(cs[0], addr, w.count);
      if w.result.Err? then Staged(w.result, here)
      else Prefixed(here, LegacyWaitAll(cs[1..], addr, Drop(script, w.count)))
  }

  /** A completed wait over all channels polled every one of them, and
      polled nothing else. */
  lemma {:induction false} LegacyWaitAllPolls(cs: seq<int>, addr: int, script: seq<Reply>)
    ensures var st := LegacyWaitAll(cs, addr, script);
      && (st.result.Ok? ==> forall c :: c in cs ==> StatusCmd(c, addr) in st.cmds)
      && (forall k :: 0 <= k < |st.cmds| ==> exists c :: c in cs && st.cmds[k] == StatusCmd(c, addr))
    decreases |cs|
  {
    if cs != [] {
      var w := LegacyWait(script);
      var here := StatusPolls(cs[0], addr, w.count);
      assert here[0] == StatusCmd(cs[0], addr);
      if w.result.Ok? {
        var rest := LegacyWaitAll(cs[1..], addr, Drop(script, w.count));
        LegacyWaitAllPolls(cs[1..], addr, Drop(script, w.count));
        var all := here + rest.cmds;
        forall c | c in cs && rest.result.Ok? ensures StatusCmd(c, addr) in all {
          if c != cs[0] {
            assert c in cs[1..];
          }
        }
        forall k | 0 <= k < |all| ensures exists c :: c in cs && all[k] == StatusCmd(c, addr) {
          if k >= |here| {
            var c :| c in cs[1..] && rest.cmds[k - |here|] == StatusCmd(c, addr);
            assert c in cs;
          } else {
            assert all[k] == StatusCmd(cs[0], addr);
          }
        }
      } else {
        forall k | 0 <= k < |here| ensures exists c :: c in cs && here[k] == StatusCmd(c, addr) {
          assert here[k] == StatusCmd(cs[0], addr);
        }
      }
    }
  }

  /** The waits of `wait_for_stop(None)`, one per channel in the order of
      the list, each on the replies the earlier ones left; the list ends
      with the first that fails. */
  ghost function LegacyWaits(cs: seq<int>, script: seq<Reply>): (ps: seq<Polls>)
    ensures |ps| <= |cs|
    decreases |cs|
  {
    if cs == [] then []
    else
      var w := LegacyWait(script);
      if w.result.Err? then [w] else [w] + LegacyWaits(cs[1..], Drop(script, w.count))
  }

  /** The status polls made by the first k of the waits. */
  ghost function PollsSpent(ps: seq<Polls>, k: nat): nat
    requires k <= |ps|
  {
    if k == 0 then 0 else PollsSpent(ps, k - 1) + ps[k - 1].count
  }

  lemma {:induction false} PollsSpentAfter(w: Polls, ps: seq<Polls>, k: nat)
    requires k <= |ps|
    ensures PollsSpent([w] + ps, k + 1) == w.count + PollsSpent(ps, k)
  {
    if k > 0 {
      PollsSpentAfter(w, ps, k - 1);
      assert ([w] + ps)[k] == ps[k - 1];
    }
  }

  /** The waits of a wait over all channels: every one but the last returned
      normally, the last one's result is the whole result, it returns
      normally only when there is one wait per channel, and one command was
      written per poll the waits made. */
  ghost predicate LegacyEndsAtFirstFailure(st: Staged<()>, ps: seq<Polls>, n: nat) {
    && (forall i :: 0 <= i < |ps| - 1 ==> ps[i].result.Ok?)
    && st.result == (if ps == [] then Ok(()) else ps[|ps| - 1].result)
    && (st.result.Ok? ==> |ps| == n)
    && |st.cmds| == PollsSpent(ps, |ps|)
  }

  lemma LegacyOkThenRest(w: Polls, here: seq<string>, rest: Staged<()>, ps: seq<Polls>, n: nat)
    requires w.result.Ok? && |here| == w.count && LegacyEndsAtFirstFailure(rest, ps, n)
    ensures LegacyEndsAtFirstFailure(Prefixed(here, rest), [w] + ps, n + 1)
  {
    var ps1 := [w] + ps;
    PollsSpentAfter(w, ps, |ps|);
    if ps != [] {
      assert ps1[|ps1| - 1] == ps[|ps| - 1];
    } else {
      match w.result.value { case () => }
    }
    forall i | 0 <= i < |ps1| - 1 ensures ps1[i].result.Ok? {
      if i > 0 {
        assert ps1[i] == ps[i - 1];
      }
    }
  }

  lemma {:induction false} LegacyFirstFailureHolds(cs: seq<int>, addr: int, script: seq<Reply>)
    ensures LegacyEndsAtFirstFailure(LegacyWaitAll(cs, addr, script), LegacyWaits(cs, script), |cs|)
    decreases |cs|
  {
    if cs != [] {
      var w := LegacyWait(script);
      var here := StatusPolls(cs[0], addr, w.count);
      if w.result.Ok? {
        LegacyFirstFailureHolds(cs[1..], addr, Drop(script, w.count));
        LegacyOkThenRest(w, here, LegacyWaitAll(cs[1..], addr, Drop(script, w.count)), LegacyWaits(cs[1..], Drop(script, w.count)), |cs| - 1);
      } else {
        var ps := LegacyWaits(cs, script);
        assert ps == [w];
        assert PollsSpent(ps, 1) == PollsSpent(ps, 0) + w.count;
      }
    }
  }

  /** How `wait_for_stop(None)` ends: it returns normally only when the wait
      for every channel of the list did; otherwise with the error of the
      first channel whose wait failed, after which no channel is polled. */
  lemma LegacyWaitAllFirstFailure(cs: seq<int>, addr: int, script: seq<Reply>)
    ensures var st, ps := LegacyWaitAll(cs, addr, script), LegacyWaits(cs, script);
      && (forall i :: 0 <= i < |ps| - 1 ==> ps[i].result.Ok?)
      && st.result == (if ps == [] then Ok(()) else ps[|ps| - 1].result)
      && (st.result.Ok? ==> |ps| == |cs|)
      && |st.cmds| == PollsSpent(ps, |ps|)
  {
    LegacyFirstFailureHolds(cs, addr, script);
  }

  /** The i-th wait of ps, for channel ch, in the commands written and the
      replies read: its commands come right after those of the earlier
      waits and are all status queries for ch; every reply to them but the
      last said "running", the last did not, and the wait's result is that
      last reply's error, or success. */
  ghost predicate StatusPolledUntilStopped(cmds: seq<string>, script: seq<Reply>, ps: seq<Polls>, i: nat, ch: int, addr: int)
    requires i < |ps|
  {
    var lo, n := PollsSpent(ps, i), ps[i].count;
    && lo + n <= |cmds| && n >= 1
    && cmds[lo..lo + n] == StatusPolls(ch, addr, n)
    && (forall j :: lo <= j < lo + n - 1 ==> StatusAnswer(NthReply(script, j)) == Ok(true))
    && var last := StatusAnswer(NthReply(script, lo + n - 1));
    && last != Ok(true)
    && ps[i].result == (if last.Err? then Err(last.error) else Ok(()))
  }

  lemma LegacyFirstPolled(script: seq<Reply>, ps: seq<Polls>, ch: int, addr: int, rest: seq<string>)
    requires ps != [] && ps[0] == LegacyWait(script)
    ensures StatusPolledUntilStopped(StatusPolls(ch, addr, ps[0].count) + rest, script, ps, 0, ch, addr)
  {
    LegacyWaitMeaning(script);
    var here := StatusPolls(ch, addr, ps[0].count);
    assert (here + rest)[0..|here|] == here;
  }

  lemma LegacyLaterPolled(w: Polls, ps: seq<Polls>, here: seq<string>, rest: seq<string>, script: seq<Reply>, i: nat, ch: int, addr: int)
    requires 1 <= i <= |ps| && |here| == w.count
    requires StatusPolledUntilStopped(rest, Drop(script, w.count), ps, i - 1, ch, addr)
    ensures StatusPolledUntilStopped(here + rest, script, [w] + ps, i, ch, addr)
  {
    var v, lo := ps[i - 1], PollsSpent(ps, i - 1);
    var hi := lo + v.count;
    assert ([w] + ps)[i] == v;
    PollsSpentAfter(w, ps, i - 1);
    assert PollsSpent([w] + ps, i) == |here| + lo;
    Driver.SliceAfter(here, rest, lo, hi);
    assert (here + rest)[|here| + lo..|here| + hi] == StatusPolls(ch, addr, v.count);
    var s1 := Drop(script, w.count);
    forall j | |here| + lo <= j < |here| + hi - 1 ensures StatusAnswer(NthReply(script, j)) == Ok(true) {
      NthDrop(script, w.count, j - |here|);
      assert StatusAnswer(NthReply(s1, j - |here|)) == Ok(true);
    }
    NthDrop(script, w.count, hi - 1);
  }

  /** `wait_for_stop(None)` polls the channels one after the other, in the
      order of the list: the commands are each channel's status polls in
      turn, and each channel is polled until its status reply says it is no
      longer running before the next channel's first poll. */
  lemma {:induction false} LegacyWaitAllInOrder(cs: seq<int>, addr: int, script: seq<Reply>)
    ensures var st, ps := LegacyWaitAll(cs, addr, script), LegacyWaits(cs, script);
      forall i :: 0 <= i < |ps| ==> StatusPolledUntilStopped(st.cmds, script, ps, i, cs[i], addr)
    decreases |cs|
  {
    if cs != [] {
      var w := LegacyWait(script);
      var here := StatusPolls(cs[0], addr, w.count);
      var st, ps := LegacyWaitAll(cs, addr, script), LegacyWaits(cs, script);
      if w.result.Ok? {
        var s1 := Drop(script, w.count);
        var rest, ps1 := LegacyWaitAll(cs[1..], addr, s1), LegacyWaits(cs[1..], s1);
        LegacyWaitAllInOrder(cs[1..], addr, s1);
        assert ps == [w] + ps1 && st.cmds == here + rest.cmds;
        LegacyFirstPolled(script, ps, cs[0], addr, rest.cmds);
        forall i | 1 <= i < |ps| ensures StatusPolledUntilStopped(st.cmds, script, ps, i, cs[i], addr) {
          assert cs[i] == cs[1..][i - 1];
          LegacyLaterPolled(w, ps1, here, rest.cmds, script, i, cs[i], addr);
        }
      } else {
        assert ps == [w] && st.cmds == here + [];
        LegacyFirstPolled(script, ps, cs[0], addr, []);
      }
    }
  }

  lemma LegacyWaitAllStep(cs: seq<int>, addr: int, i: nat, script: seq<Reply>)
    requires i < |cs|
    ensures var w := LegacyWait(script);
      var here := StatusPolls(cs[i], addr, w.count);
      LegacyWaitAll(cs[i..], addr, script) ==
        if w.result.Err? then Staged(w.result, here)
        else Prefixed(here, LegacyWaitAll(cs[i + 1..], addr, Drop(script, w.count)))
  {
    assert cs[i..][0] == cs[i] && cs[i..][1..] == cs[i + 1..];
  }

  /** Partway through the channels: the first i were waited for, writing the commands done. */
  ghost predicate WaitMidway(cs: seq<int>, addr: int, whole: Staged<()>, s0: seq<Reply>, w0: seq<string>, i: nat,
                             done: seq<string>, written: seq<string>, replies: seq<Reply>)
  {
    && i <= |cs| && written == w0 + Frames(done) && replies == Drop(s0, |done|)
    && whole == Prefixed(done, LegacyWaitAll(cs[i..], addr, replies))
  }

  /** The wait over the channels ended on error e after writing the commands done. */
  ghost predicate WaitFailed(whole: Staged<()>, s0: seq<Reply>, w0: seq<string>, e: PumpError, done: seq<string>,
                             written: seq<string>, replies: seq<Reply>)
  {
    && written == w0 + Frames(done) && replies == Drop(s0, |done|)
    && whole == Staged(Err(e), done)
  }

  /** One channel of `wait_for_stop(None)`. */
  method WaitAdvance(port: Port, cs: seq<int>, addr: int, i: nat,
                     ghost whole: Staged<()>, ghost s0: seq<Reply>, ghost w0: seq<string>, ghost done: seq<string>)
    returns (failed: Option<PumpError>, ghost done1: seq<string>)
    requires i < |cs| && WaitMidway(cs, addr, whole, s0, w0, i, done, port.written, port.replies)
    modifies port
    ensures failed.None? ==> WaitMidway(cs, addr, whole, s0, w0, i + 1, done1, port.written, port.replies)
    ensures failed.Some? ==> WaitFailed(whole, s0, w0, failed.value, done1, port.written, port.replies)
  {
    ghost var s1, w1 := port.replies, port.written;
    LegacyWaitAllStep(cs, addr, i, s1);
    var r := WaitStopped(port, cs[i], addr);
    ghost var w := LegacyWait(s1);
    ghost var here := StatusPolls(cs[i], addr, w.count);
    WrittenAfter(w0, w1, port.written, done, here);
    DropDrop(s0, |done|, |here|);
    done1 := done + here;
    if r.Err? {
      failed := Some(r.error);
    } else {
      failed := None;
      PrefixedPrefixed(done, here, LegacyWaitAll(cs[i + 1..], addr, port.replies));
    }
  }

  /** The loop of `wait_for_stop(None)` over the channels cs. */
  method WaitChannels(port: Port, cs: seq<int>, addr: int) returns (r: Result<()>)
    modifies port
    ensures var st := LegacyWaitAll(cs, addr, old(port.replies));
      && r == st.result && port.written == old(port.written) + Frames(st.cmds)
      && port.replies == Drop(old(port.replies), |st.cmds|)
  {
    ghost var s0, w0 := port.replies, port.written;
    ghost var whole := LegacyWaitAll(cs, addr, s0);
    ghost var done: seq<string> := [];
    assert cs[0..] == cs && w0 + Frames([]) == w0;
    var i := 0;
    var failed: Option<PumpError> := None;
    while i < |cs| && failed.None?
      invariant i <= |cs|
      invariant failed.None? ==> WaitMidway(cs, addr, whole, s0, w0, i, done, port.written, port.replies)
      invariant failed.Some? ==> WaitFailed(whole, s0, w0, failed.value, done, port.written, port.replies)
    {
      failed, done := WaitAdvance(port, cs, addr, i, whole, s0, w0, done);
      i := i + 1;
    }
    if failed.None? {
      assert cs[i..] == [];
      assert done + [] == done;
      r := Ok(());
    } else {
      r := Err(failed.value);
    }
  }

  // ---------------------------------------------------------------------
  // pump_vol

  /** The six exchanges of `pump_vol`: direction, mode, speed source,
      volume, rate (each a one-field reply) and start. */
  function LegacyVolExchanges(ch: int, d: PumpDirection, vol: Sci, rate: Sci, addr: int): (xs: seq<Exchange>)
    ensures |xs| == 6
  {
    var cs := PumpVolCmds(ch, d, vol, rate, addr);
    [Command(cs[0]), Command(cs[1]), Command(cs[2]), Query(cs[3], [StrField]), Query(cs[4], [StrField]), Command(cs[5])]
  }

  /** The package's `pump_vol` is the older one with a stop of the channel in front. */
  lemma PackageStopsFirst(ch: int, d: PumpDirection, vol: Sci, rate: Sci, addr: int)
    ensures Driver.PumpVolExchanges(ch, d, vol, rate, addr)
         == [Command(StopCmd(ch, addr))] + LegacyVolExchanges(ch, d, vol, rate, addr)
  {
  }

  /** `pump_vol` once the direction is converted: the six exchanges up to
      the first failure; then, when blocking, `wait_for_stop(ch)`, whose
      `is_running` is the first to refuse a channel the pump does not have. */
  ghost predicate LegacyPumped(cs: seq<int>, ch: int, d: PumpDirection, vol: Sci, rate: Sci, addr: int, blocking: bool,
                               s0: seq<Reply>, w0: seq<string>, r: Result<()>, s: seq<Reply>, w: seq<string>)
  {
    var xs := LegacyVolExchanges(ch, d, vol, rate, addr);
    var o := RunAll(xs, s0);
    if o.error.Some? then
      r == Err(o.error.value) && w == w0 + FramesOf(xs[..o.sent]) && s == Drop(s0, o.sent)
    else
      var s1, w1 := Drop(s0, |xs|), w0 + FramesOf(xs);
      if !blocking then r == Ok(()) && w == w1 && s == s1
      else if ch !in cs then r == Err(InvalidChannel(ch)) && w == w1 && s == s1
      else
        var wt := LegacyWait(s1);
        r == wt.result && w == w1 + Frames(StatusPolls(ch, addr, wt.count)) && s == Drop(s1, wt.count)
  }

  // ---------------------------------------------------------------------
  // Construction

  /** The opening of the legacy constructor: `~1`, then `_ask_num_channels`. */
  function LegacyOpening(addr: int, script: seq<Reply>): (st: Staged<int>)
    ensures 1 <= |st.cmds| <= 2 && st.cmds == [InitCmd(addr), ChannelCountCmd(addr)][..|st.cmds|]
    ensures st.result.Ok? ==> |st.cmds| == 2
    ensures st.result.Ok? ==> (CountReply(LineText(NthReply(script, 1))).Ok?
      && st.result.value == CountReply(LineText(NthReply(script, 1))).value)
  {
    var all := [InitCmd(addr), ChannelCountCmd(addr)];
    assert all[..1] == [InitCmd(addr)] && all[..2] == all;
    match CommandError(NthReply(script, 0))
    case Some(e) => Staged(Err(e), [InitCmd(addr)])
    case None => Staged(CountReply(LineText(NthReply(script, 1))), all)
  }

  method OpenPump(port: Port, addr: int) returns (st: Staged<int>)
    modifies port
    ensures st == LegacyOpening(addr, old(port.replies))
    ensures port.written == old(port.written) + Frames(st.cmds) && port.replies == Drop(old(port.replies), |st.cmds|)
  {
    ghost var s0, w0 := port.replies, port.written;
    var e := SelectChannelAddressing(port, addr);
    if e.Some? {
      st := Staged(Err(e.value), [InitCmd(addr)]);
    } else {
      ghost var w1 := port.written;
      var n := AskNumChannels(port, addr);
      NthDrop(s0, 1, 0);
      DropDrop(s0, 1, 1);
      WrittenAfter(w0, w1, port.written, [InitCmd(addr)], [ChannelCountCmd(addr)]);
      st := Staged(n, [InitCmd(addr), ChannelCountCmd(addr)]);
    }
  }

  /** The close of the legacy constructor: `_ask_serial_no`, then
      `_ask_pump_info`. */
  function LegacyClosing(addr: int, script: seq<Reply>): (st: Staged<(string, PumpInfo)>)
    ensures 1 <= |st.cmds| <= 2 && st.cmds == [SerialNoCmd(addr), PumpInfoCmd(addr)][..|st.cmds|]
    ensures st.result.Ok? ==> |st.cmds| == 2 && st.result.value.0 == Strip(LineText(NthReply(script, 0)))
  {
    var all := [SerialNoCmd(addr), PumpInfoCmd(addr)];
    assert all[..1] == [SerialNoCmd(addr)] && all[..2] == all;
    var line := LineText(NthReply(script, 0));
    SerialIsWholeLine(line);
    var sn := SerialReply(line);
    if sn.Err? then Staged(Err(sn.error), [SerialNoCmd(addr)])
    else
      var info := InfoReply(LineText(NthReply(script, 1)));
      if info.Err? then Staged(Err(info.error), all) else Staged(Ok((sn.value, info.value)), all)
  }

  method ClosePump(port: Port, addr: int) returns (st: Staged<(string, PumpInfo)>)
    modifies port
    ensures st == LegacyClosing(addr, old(port.replies))
    ensures port.written == old(port.written) + Frames(st.cmds) && port.replies == Drop(old(port.replies), |st.cmds|)
  {
    ghost var s0, w0 := port.replies, port.written;
    var sn := AskSerialNo(port, addr);
    if sn.Err? {
      st := Staged(Err(sn.error), [SerialNoCmd(addr)]);
    } else {
      ghost var w1 := port.written;
      var info := AskPumpInfo(port, addr);
      NthDrop(s0, 1, 0);
      DropDrop(s0, 1, 1);
      WrittenAfter(w0, w1, port.written, [SerialNoCmd(addr)], [PumpInfoCmd(addr)]);
      st := Staged(if info.Err? then Err(info.error) else Ok((sn.value, info.value)), [SerialNoCmd(addr), PumpInfoCmd(addr)]);
    }
  }

  /** The rest of the legacy constructor: the channel list, the directions
      (a value naming no direction raises before any tubing exchange), the
      tubing loop starting from no diameters, then the close. */
  function LegacyConfigure(addr: int, n: int, dirItems: seq<(int, DirectionArg)>,
                           tubing: seq<(int, int)>, script: seq<Reply>): Staged<Startup>
  {
    var cs := Channels(n);
    var conv := ConvertDirs(dirItems);
    if conv.Err? then Staged(Err(conv.error), [])
    else
      var tb := TubingAll(cs, addr, tubing, map[], script);
      if tb.result.Err? then Staged(Err(tb.result.error), tb.cmds)
      else
        var cl := LegacyClosing(addr, Drop(script, |tb.cmds|));
        if cl.result.Err? then Staged(Err(cl.result.error), tb.cmds + cl.cmds)
        else
          var (sn, info) := cl.result.value;
          var dirs := DefaultDirs(cs) + conv.value;
          var u := Settings(cs, sn, info.modelNo, info.swVer, info.headCode, dirs);
          Staged(Ok(Startup(u, tb.result.value)), tb.cmds + cl.cmds)
  }

  /** The whole of the legacy `__init__`, for the caller's dispense
      directions and tubing diameters (items in dictionary order; no
      dictionary is an empty one). */
  function LegacyStartup(addr: int, dirItems: seq<(int, DirectionArg)>, tubing: seq<(int, int)>,
                         script: seq<Reply>): Staged<Startup>
  {
    var op := LegacyOpening(addr, script);
    if op.result.Err? then Staged(Err(op.result.error), op.cmds)
    else Prefixed(op.cmds, LegacyConfigure(addr, op.result.value, dirItems, tubing, Drop(script, |op.cmds|)))
  }

  /** The value of a successful configuration, assembled from its stages. */
  lemma LegacyConfigureParts(addr: int, n: int, dirItems: seq<(int, DirectionArg)>,
                             tubing: seq<(int, int)>, script: seq<Reply>)
    requires LegacyConfigure(addr, n, dirItems, tubing, script).result.Ok?
    ensures ConvertDirs(dirItems).Ok?
      && var cs := Channels(n);
      && var tb := TubingAll(cs, addr, tubing, map[], script);
      && tb.result.Ok?
      && var cl := LegacyClosing(addr, Drop(script, |tb.cmds|));
      && cl.result.Ok?
      && var (sn, info) := cl.result.value;
      && var dirs := DefaultDirs(cs) + ConvertDirs(dirItems).value;
      && var u := Settings(cs, sn, info.modelNo, info.swVer, info.headCode, dirs);
      && LegacyConfigure(addr, n, dirItems, tubing, script) == Staged(Ok(Startup(u, tb.result.value)), tb.cmds + cl.cmds)
  {
  }

  /** A successful legacy start-up leaves channels 1..n, each with a
      dispense direction, the serial number the pump reported after the
      tubing loop, and a diameter for exactly the channels the caller named,
      all of them known. */
  lemma LegacyStartupSettled(addr: int, dirItems: seq<(int, DirectionArg)>, tubing: seq<(int, int)>,
                             script: seq<Reply>)
    requires LegacyStartup(addr, dirItems, tubing, script).result.Ok?
    ensures var st := LegacyStartup(addr, dirItems, tubing, script);
      var u := st.result.value;
      && Settled(u)
      && |st.cmds| >= 4
      && CountReply(LineText(NthReply(script, 1))).Ok?
      && u.settings.channelNos == Channels(CountReply(LineText(NthReply(script, 1))).value)
      && u.settings.serialNo == Strip(LineText(NthReply(script, |st.cmds| - 2)))
      && u.settings.dispenseDirs == DefaultDirs(u.settings.channelNos) + ConvertDirs(dirItems).value
      && u.tubingIds.Keys == KeysOf(tubing)
  {
    var op := LegacyOpening(addr, script);
    var rest := Drop(script, |op.cmds|);
    var n := op.result.value;
    LegacyConfigureParts(addr, n, dirItems, tubing, rest);
    var cs := Channels(n);
    var none: map<int, real> := map[];
    var tb := TubingAll(cs, addr, tubing, none, rest);
    TubingAllKeys(cs, addr, tubing, none, rest);
    assert none.Keys + KeysOf(tubing) == KeysOf(tubing);
    var tail := Drop(rest, |tb.cmds|);
    var cl := LegacyClosing(addr, tail);
    DropDrop(script, |op.cmds|, |tb.cmds|);
    NthDrop(script, |op.cmds| + |tb.cmds|, 0);
    var (sn, info) := cl.result.value;
    SettledParts(n, sn, info, ConvertDirs(dirItems).value, tubing, tb.result.value);
  }

  /** A successful legacy start-up selects channel addressing and asks for
      the channel count first, and asks for the serial number and the model
      last: the reverse of the package's order for the serial number. */
  lemma LegacyStartupCommands(addr: int, dirItems: seq<(int, DirectionArg)>, tubing: seq<(int, int)>,
                              script: seq<Reply>)
    requires LegacyStartup(addr, dirItems, tubing, script).result.Ok?
    ensures var cmds := LegacyStartup(addr, dirItems, tubing, script).cmds;
      && |cmds| >= 4 && cmds[..2] == [InitCmd(addr), ChannelCountCmd(addr)]
      && cmds[|cmds| - 2..] == [SerialNoCmd(addr), PumpInfoCmd(addr)]
  {
    var op := LegacyOpening(addr, script);
    var rest := Drop(script, |op.cmds|);
    LegacyConfigureParts(addr, op.result.value, dirItems, tubing, rest);
    var tb := TubingAll(Channels(op.result.value), addr, tubing, map[], rest);
    var cl := LegacyClosing(addr, Drop(rest, |tb.cmds|));
    var cmds := op.cmds + (tb.cmds + cl.cmds);
    assert cmds[..2] == op.cmds;
    assert cmds[|cmds| - 2..] == cl.cmds;
  }

  /** The legacy constructor after the pump answered `~1` and `xA`; the
      start-up's commands are ghost. */
  method ConfigurePump(port: Port, addr: int, n: int, dirItems: seq<(int, DirectionArg)>,
                       tubing: seq<(int, int)>) returns (r: Result<Startup>)
    modifies port
    ensures var st := LegacyConfigure(addr, n, dirItems, tubing, old(port.replies));
      && r == st.result && port.written == old(port.written) + Frames(st.cmds)
      && port.replies == Drop(old(port.replies), |st.cmds|)
  {
    ghost var s0, w0 := port.replies, port.written;
    var cs := Channels(n);
    var conv := ConvertDirs(dirItems);
    if conv.Err? {
      r := Err(conv.error);
      assert Frames([]) == [] && w0 + [] == w0;
    } else {
      ghost var tb := TubingAll(cs, addr, tubing, map[], s0);
      var ids := SetTubingIds(port, cs, addr, tubing, map[]);
      if ids.Err? {
        r := Err(ids.error);
      } else {
        ghost var w1 := port.written;
        var cl := ClosePump(port, addr);
        DropDrop(s0, |tb.cmds|, |cl.cmds|);
        WrittenAfter(w0, w1, port.written, tb.cmds, cl.cmds);
        if cl.result.Err? {
          r := Err(cl.result.error);
        } else {
          var (sn, info) := cl.result.value;
          var dirs := DefaultDirs(cs) + conv.value;
          var u := Settings(cs, sn, info.modelNo, info.swVer, info.headCode, dirs);
          r := Ok(Startup(u, ids.value));
        }
      }
    }
  }

  /** The legacy `__init__` after the port and the address are stored. */
  method StartPump(port: Port, addr: int, dirItems: seq<(int, DirectionArg)>, tubing: seq<(int, int)>)
    returns (r: Result<Startup>)
    modifies port
    ensures var st := LegacyStartup(addr, dirItems, tubing, old(port.replies));
      && r == st.result && port.written == old(port.written) + Frames(st.cmds)
      && port.replies == Drop(old(port.replies), |st.cmds|)
    ensures r.Ok? ==> Settled(r.value)
  {
    ghost var s0, w0 := port.replies, port.written;
    var op := OpenPump(port, addr);
    if op.result.Err? {
      r := Err(op.result.error);
    } else {
      ghost var w1 := port.written;
      ghost var conf := LegacyConfigure(addr, op.result.value, dirItems, tubing, port.replies);
      r := ConfigurePump(port, addr, op.result.value, dirItems, tubing);
      WrittenAfter(w0, w1, port.written, op.cmds, conf.cmds);
      DropDrop(s0, |op.cmds|, |conf.cmds|);
      if r.Ok? {
        LegacyStartupSettled(addr, dirItems, tubing, s0);
      }
    }
  }

  // ---------------------------------------------------------------------
  // The session object

  /** A session with one pump through the older driver. */
  class LegacyPump {
    const port: Port
    const addr: int
    var channelNos: seq<int>
    var serialNo: string
    var modelNo: string
    var swVer: string
    var headCode: string
    var dispenseDirs: map<int, PumpDirection>
    var tubingIds: map<int, real>

    ghost predicate Valid()
      reads this
    {
      && channelNos == Channels(|channelNos|)
      && (forall c :: c in channelNos ==> c in dispenseDirs)
      && (forall c :: c in tubingIds ==> c in channelNos)
    }

    ghost function Config(): Settings
      reads this
    {
      Settings(channelNos, serialNo, modelNo, swVer, headCode, dispenseDirs)
    }

    /** The object before `__init__` has asked the pump anything. */
    constructor (port: Port, addr: int)
      ensures Valid()
      ensures this.port == port && this.addr == addr
      ensures channelNos == [] && dispenseDirs == map[] && tubingIds == map[]
    {
      this.port := port;
      this.addr := addr;
      channelNos := [];
      serialNo := "";
      modelNo := "";
      swVer := "";
      headCode := "";
      dispenseDirs := map[];
      tubingIds := map[];
    }

    /** The legacy `__init__` on the object the constructor left: on success
        the pump's settings and diameters are those of the start-up; on
        failure, where the source raises out of its constructor, nothing of
        the object changes. */
    method Init(dirItems: seq<(int, DirectionArg)>, tubing: seq<(int, int)>) returns (r: Result<()>)
      requires Valid()
      modifies this, port
      ensures Valid()
      ensures var st := LegacyStartup(addr, dirItems, tubing, old(port.replies));
        && (r.Ok? <==> st.result.Ok?) && (st.result.Err? ==> r == Err(st.result.error))
        && port.written == old(port.written) + Frames(st.cmds) && port.replies == Drop(old(port.replies), |st.cmds|)
        && (st.result.Ok? ==> Config() == st.result.value.settings && tubingIds == st.result.value.tubingIds)
      ensures r.Err? ==> Config() == old(Config()) && tubingIds == old(tubingIds)
    {
      var st := StartPump(port, addr, dirItems, tubing);
      if st.Err? {
        r := Err(st.error);
      } else {
        Adopt(st.value);
        r := Ok(());
      }
    }

    /** The fields `__init__` sets, from a settled start-up. */
    method Adopt(s: Startup)
      requires Settled(s)
      modifies this
      ensures Valid() && Config() == s.settings && tubingIds == s.tubingIds
    {
      var u := s.settings;
      channelNos, serialNo, modelNo, swVer, headCode := u.channelNos, u.serialNo, u.modelNo, u.swVer, u.headCode;
      dispenseDirs, tubingIds := u.dispenseDirs, s.tubingIds;
    }

    /** `set_tubing_id` with the diameter already in hundredths of a mm, for
        a known channel only; the value read back is stored for that channel
        only when both exchanges succeeded. */
    method SetTubingId(ch: int, hundredths: int) returns (r: Result<real>)
      requires Valid()
      modifies this, port
      ensures Valid() && Config() == old(Config())
      ensures var e := TubingEntry(channelNos, addr, ch, hundredths, old(port.replies));
        && r == e.result && tubingIds == Stored(old(tubingIds), ch, r)
        && port.written == old(port.written) + Frames(e.cmds) && port.replies == Drop(old(port.replies), |e.cmds|)
    {
      var e := SetTubingEntry(port, channelNos, addr, ch, hundredths);
      r := e.result;
      tubingIds := Stored(tubingIds, ch, r);
    }

    /** `is_running(ch)`: a known channel only; one status exchange. */
    method IsRunning(ch: int) returns (r: Result<bool>)
      modifies port
      ensures ch !in channelNos ==>
        r == Err(InvalidChannel(ch)) && port.written == old(port.written) && port.replies == old(port.replies)
      ensures ch in channelNos ==>
        && r == StatusAnswer(NthReply(old(port.replies), 0))
        && port.written == old(port.written) + [Frame(StatusCmd(ch, addr))]
        && port.replies == Rest(old(port.replies))
    {
      if ch !in channelNos {
        r := Err(InvalidChannel(ch));
      } else {
        var a := RunCmd(port, StatusCmd(ch, addr), false);
        r := if a.Err? then Err(a.error) else Ok(a.value == '+');
      }
    }

    /** `wait_for_stop(ch)`: the first `is_running` refuses an unknown
        channel before anything is written. */
    method WaitForStopChannel(ch: int) returns (r: Result<()>)
      modifies port
      ensures ch !in channelNos ==>
        r == Err(InvalidChannel(ch)) && port.written == old(port.written) && port.replies == old(port.replies)
      ensures ch in channelNos ==> var w := LegacyWait(old(port.replies));
        && r == w.result && port.written == old(port.written) + Frames(StatusPolls(ch, addr, w.count))
        && port.replies == Drop(old(port.replies), w.count)
    {
      if ch !in channelNos {
        r := Err(InvalidChannel(ch));
      } else {
        r := WaitStopped(port, ch, addr);
      }
    }

    /** `wait_for_stop(ch_no)`: one channel, or every channel in order. */
    method AwaitStop(ch: Option<int>) returns (r: Result<()>)
      modifies port
      ensures ch.Some? && ch.value !in channelNos ==>
        r == Err(InvalidChannel(ch.value)) && port.written == old(port.written) && port.replies == old(port.replies)
      ensures ch.Some? && ch.value in channelNos ==> var w := LegacyWait(old(port.replies));
        && r == w.result && port.written == old(port.written) + Frames(StatusPolls(ch.value, addr, w.count))
        && port.replies == Drop(old(port.replies), w.count)
      ensures ch.None? ==> var st := LegacyWaitAll(channelNos, addr, old(port.replies));
        && r == st.result && port.written == old(port.written) + Frames(st.cmds)
        && port.replies == Drop(old(port.replies), |st.cmds|)
    {
      if ch.None? {
        r := WaitChannels(port, channelNos, addr);
      } else {
        r := WaitForStopChannel(ch.value);
      }
    }

    /** `pump_vol(ch, direction, vol, rate, blocking)`: only the direction is
        checked before the exchanges; the channel is checked by the wait. */
    method PumpVol(ch: int, direction: DirectionArg, vol: Sci, rate: Sci, blocking: bool) returns (r: Result<()>)
      modifies port
      ensures ToDirection(direction).Err? ==>
        r == Err(InvalidDirection(direction.text)) && port.written == old(port.written) && port.replies == old(port.replies)
      ensures ToDirection(direction).Ok? ==>
        LegacyPumped(channelNos, ch, ToDirection(direction).value, vol, rate, addr, blocking,
                     old(port.replies), old(port.written), r, port.replies, port.written)
    {
      var dir := ToDirection(direction);
      if dir.Err? {
        r := Err(dir.error);
      } else {
        var xs := LegacyVolExchanges(ch, dir.value, vol, rate, addr);
        var e := RunExchanges(port, xs);
        if e.Some? {
          r := Err(e.value);
        } else {
          assert xs[..|xs|] == xs;
          if blocking {
            r := WaitForStopChannel(ch);
          } else {
            r := Ok(());
          }
        }
      }
    }

    /** `dispense_vol`: the channel is checked first, then `pump_vol` in the
        channel's dispense direction. */
    method DispenseVol(ch: int, vol: Sci, rate: Sci, blocking: bool) returns (r: Result<()>)
      requires Valid()
      modifies port
      ensures ch !in channelNos ==>
        r == Err(InvalidChannel(ch)) && port.written == old(port.written) && port.replies == old(port.replies)
      ensures ch in channelNos ==>
        LegacyPumped(channelNos, ch, dispenseDirs[ch], vol, rate, addr, blocking,
                     old(port.replies), old(port.written), r, port.replies, port.written)
    {
      if ch !in channelNos {
        r := Err(InvalidChannel(ch));
      } else {
        r := PumpVol(ch, Member(dispenseDirs[ch]), vol, rate, blocking);
      }
    }

    /** `aspirate_vol`: the channel is checked first, then `pump_vol`
        opposite to the channel's dispense direction. */
    method AspirateVol(ch: int, vol: Sci, rate: Sci, blocking: bool) returns (r: Result<()>)
      requires Valid()
      modifies port
      ensures ch !in channelNos ==>
        r == Err(InvalidChannel(ch)) && port.written == old(port.written) && port.replies == old(port.replies)
      ensures ch in channelNos ==>
        LegacyPumped(channelNos, ch, Opposite(dispenseDirs[ch]), vol, rate, addr, blocking,
                     old(port.replies), old(port.written), r, port.replies, port.written)
    {
      if ch !in channelNos {
        r := Err(InvalidChannel(ch));
      } else {
        r := PumpVol(ch, Member(Opposite(dispenseDirs[ch])), vol, rate, blocking);
      }
    }

    /** `show_msg`: `{addr}DA` and the first 15 characters of the message. */
    method ShowMsg(msg: string) returns (r: Result<()>)
      modifies port
      ensures port.written == old(port.written) + [Frame(DisplayCmd(addr, msg))]
      ensures port.replies == Rest(old(port.replies))
      ensures r == OrOk(Check(Command(DisplayCmd(addr, msg)), NthReply(old(port.replies), 0)))
    {
      var e := Perform(port, Command(DisplayCmd(addr, msg)));
      r := OrOk(e);
    }
  }
}
