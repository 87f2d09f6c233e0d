/** What both drivers do while they start, besides their own first queries:
    `set_tubing_id` for each tubing diameter given to the constructor, and the
    closing `{addr}#` query for the model, software version and head code. */
module Setup {
  import opened PumpTypes
  import opened Transport
  import opened Commands
  import opened Session

  /** The commands a stage wrote (each read one reply) and what it returned. */
  datatype Staged<T> = Staged(result: Result<T>, cmds: seq<string>)

  /** Commands already written, put in front of a later stage. */
  function Prefixed<T>(cmds: seq<string>, st: Staged<T>): (p: Staged<T>)
    ensures p.result == st.result && p.cmds == cmds + st.cmds
  {
    Staged(st.result, cmds + st.cmds)
  }

  lemma PrefixedPrefixed<T>(c1: seq<string>, c2: seq<string>, st: Staged<T>)
    ensures Prefixed(c1, Prefixed(c2, st)) == Prefixed(c1 + c2, st)
  {
    assert c1 + (c2 + st.cmds) == (c1 + c2) + st.cmds;
  }

  /** Frames written for commands written after others. */
  lemma FramesAppend(a: seq<string>, b: seq<string>)
    ensures Frames(a + b) == Frames(a) + Frames(b)
  {
  }

  lemma FramesOne(c: string)
    ensures Frames([c]) == [Frame(c)]
  {
  }

  lemma WrittenAfter(w0: seq<string>, w1: seq<string>, w2: seq<string>, a: seq<string>, b: seq<string>)
    requires w1 == w0 + Frames(a) && w2 == w1 + Frames(b)
    ensures w2 == w0 + Frames(a + b)
  {
    FramesAppend(a, b);
    assert w0 + Frames(a) + Frames(b) == w0 + (Frames(a) + Frames(b));
  }

  /** What the pump told the driver at construction, and the dispense
      directions: nothing a session operation other than construction changes. */
  datatype Settings = Settings(
    channelNos: seq<int>, serialNo: string, modelNo: string, swVer: string,
    headCode: string, dispenseDirs: map<int, PumpDirection>)

  /** Everything a successful `__init__` leaves behind besides the fresh
      tracker entries. */
  datatype Startup = Startup(settings: Settings, tubingIds: map<int, real>)

  /** What the object's invariant needs of a start-up. */
  predicate Settled(s: Startup) {
    && s.settings.channelNos == Channels(|s.settings.channelNos|)
    && (forall c :: c in s.settings.channelNos ==> c in s.settings.dispenseDirs)
    && (forall c :: c in s.tubingIds ==> c in s.settings.channelNos)
  }

  /** The start-up built from its parts: channels 1..n, each with a
      direction, and diameters only for known channels. */
  lemma SettledParts(n: int, sn: string, info: PumpInfo, conv: map<int, PumpDirection>,
                     tubing: seq<(int, int)>, ids: map<int, real>)
    requires forall i :: 0 <= i < |tubing| ==> tubing[i].0 in Channels(n)
    requires ids.Keys == KeysOf(tubing)
    ensures var cs := Channels(n);
      var u := Settings(cs, sn, info.modelNo, info.swVer, info.headCode, DefaultDirs(cs) + conv);
      && u.channelNos == Channels(|u.channelNos|)
      && (forall c :: c in u.channelNos ==> c in u.dispenseDirs)
      && (forall c :: c in ids ==> c in u.channelNos)
  {
    var cs := Channels(n);
    assert Channels(|cs|) == cs;
    forall c | c in ids ensures c in cs {
      var i :| 0 <= i < |tubing| && tubing[i].0 == c;
    }
  }

  // ---------------------------------------------------------------------
  // set_tubing_id

  /** The reply to `{ch}++{addr}`: a diameter and a unit; the diameter is kept. */
  function TubingReply(line: string): (r: Result<real>)
    ensures r.Ok? <==> ParseQueryReply(line, [FloatField, StrField]).Ok?
    ensures r.Err? ==> r.error == ParseQueryReply(line, [FloatField, StrField]).error
    ensures r.Ok? ==> r.value == ParseQueryReply(line, [FloatField, StrField]).value[0].r
  {
    var q := ParseQueryReply(line, [FloatField, StrField]);
    if q.Err? then Err(q.error) else Ok(q.value[0].r)
  }

  /** `_run_query(f"{ch}++{addr}", [float, str])`, keeping the diameter. */
  method AskTubingId(port: Port, ch: int, addr: int) returns (r: Result<real>)
    modifies port
    ensures port.written == old(port.written) + [Frame(TubingQueryCmd(ch, addr))]
    ensures port.replies == Rest(old(port.replies))
    ensures r == TubingReply(LineText(NthReply(old(port.replies), 0)))
  {
    var q := RunQuery(port, TubingQueryCmd(ch, addr), [FloatField, StrField]);
    r := if q.Err? then Err(q.error) else Ok(q.value[0].r);
  }

  /** What `set_tubing_id` reports for the replies to come: every valid
      acknowledgement other than `*` (a RemoteError) becomes InvalidTubingId,
      silence and an invalid byte pass through, and after `*` the diameter
      read back is returned. */
  function TubingOutcome(hundredths: int, script: seq<Reply>): (r: Result<real>)
    ensures r == Err(InvalidTubingId(hundredths)) <==> AckByte(NthReply(script, 0)) in {Some('#'), Some('-'), Some('+')}
    ensures AckByte(NthReply(script, 0)).None? ==> r == Err(CommandTimeout)
    ensures AckByte(NthReply(script, 0)).Some? && AckByte(NthReply(script, 0)).value !in AckBytes ==>
      r == Err(InvalidResponse(UnexpectedAck))
    ensures AckByte(NthReply(script, 0)) == Some('*') ==> r == TubingReply(LineText(NthReply(script, 1)))
    ensures r.Ok? ==> (AckByte(NthReply(script, 0)) == Some('*')
      && ParseQueryReply(LineText(NthReply(script, 1)), [FloatField, StrField]).Ok?
      && r.value == ParseQueryReply(LineText(NthReply(script, 1)), [FloatField, StrField]).value[0].r)
  {
    var ack := ClassifyAck(AckByte(NthReply(script, 0)), true);
    if ack.Err? then Err(if ack.error == RemoteError then InvalidTubingId(hundredths) else ack.error)
    else TubingReply(LineText(NthReply(script, 1)))
  }

  /** The commands `set_tubing_id` writes on a known channel: the setting,
      and the query only once the setting was acknowledged. */
  function TubingCmds(ch: int, addr: int, hundredths: int, script: seq<Reply>): seq<string> {
    if AckByte(NthReply(script, 0)) == Some('*') then [TubingSetCmd(ch, addr, hundredths), TubingQueryCmd(ch, addr)]
    else [TubingSetCmd(ch, addr, hundredths)]
  }

  /** The diameters known after a read-back: the value read is stored for the
      channel, a failure leaves them as they were. */
  function Stored(ids: map<int, real>, ch: int, r: Result<real>): (m: map<int, real>)
    ensures r.Ok? ==> m == ids[ch := r.value]
    ensures r.Err? ==> m == ids
  {
    if r.Ok? then ids[ch := r.value] else ids
  }

  /** The two exchanges of `set_tubing_id` for a known channel, with the
      commands written. */
  method TubingExchange(port: Port, ch: int, addr: int, hundredths: int) returns (st: Staged<real>)
    modifies port
    ensures st == Staged(TubingOutcome(hundredths, old(port.replies)), TubingCmds(ch, addr, hundredths, old(port.replies)))
    ensures port.written == old(port.written) + Frames(st.cmds) && port.replies == Drop(old(port.replies), |st.cmds|)
  {
    ghost var s0, w0 := port.replies, port.written;
    var setCmd := TubingSetCmd(ch, addr, hundredths);
    var ack := RunCmd(port, setCmd, true);
    FramesOne(setCmd);
    RestReplies(s0);
    if ack.Err? {
      st := Staged(Err(if ack.error == RemoteError then InvalidTubingId(hundredths) else ack.error), [setCmd]);
    } else {
      ghost var w1 := port.written;
      var r := AskTubingId(port, ch, addr);
      FramesOne(TubingQueryCmd(ch, addr));
      WrittenAfter(w0, w1, port.written, [setCmd], [TubingQueryCmd(ch, addr)]);
      st := Staged(r, [setCmd] + [TubingQueryCmd(ch, addr)]);
    }
  }

  /** The channels a caller's dictionary names. */
  function KeysOf<V>(items: seq<(int, V)>): set<int> {
    set i | 0 <= i < |items| :: items[i].0
  }

  lemma KeysOfFirst<V>(items: seq<(int, V)>)
    requires items != []
    ensures KeysOf(items) == {items[0].0} + KeysOf(items[1..])
  {
    forall k | k in KeysOf(items) ensures k == items[0].0 || k in KeysOf(items[1..]) {
      var i :| 0 <= i < |items| && items[i].0 == k;
      if i > 0 {
        assert items[1..][i - 1] == items[i];
      }
    }
    forall k | k in KeysOf(items[1..]) ensures k in KeysOf(items) {
      var i :| 0 <= i < |items[1..]| && items[1..][i].0 == k;
      assert items[i + 1] == items[1..][i];
    }
  }

  /** One entry of the tubing loop: `set_tubing_id(ch, h)` on the channels
      `cs`, an unknown channel refused before anything is written. */
  function TubingEntry(cs: seq<int>, addr: int, ch: int, h: int, script: seq<Reply>): Staged<real> {
    if ch !in cs then Staged(Err(InvalidChannel(ch)), [])
    else Staged(TubingOutcome(h, script), TubingCmds(ch, addr, h, script))
  }

  method SetTubingEntry(port: Port, cs: seq<int>, addr: int, ch: int, h: int) returns (st: Staged<real>)
    modifies port
    ensures st == TubingEntry(cs, addr, ch, h, old(port.replies))
    ensures port.written == old(port.written) + Frames(st.cmds) && port.replies == Drop(old(port.replies), |st.cmds|)
  {
    if ch !in cs {
      st := Staged(Err(InvalidChannel(ch)), []);
      assert Frames([]) == [] && old(port.written) + [] == old(port.written);
    } else {
      st := TubingExchange(port, ch, addr, h);
    }
  }

  /** The bookkeeping of TubingAllKeys for one entry, on plain values. */
  lemma KeysStep(cs: seq<int>, items: seq<(int, int)>, ids: map<int, real>, v: real, m: map<int, real>)
    requires items != [] && items[0].0 in cs
    requires forall i :: 0 <= i < |items[1..]| ==> items[1..][i].0 in cs
    requires m.Keys == ids[items[0].0 := v].Keys + KeysOf(items[1..])
    ensures forall i :: 0 <= i < |items| ==> items[i].0 in cs
    ensures m.Keys == ids.Keys + KeysOf(items)
  {
    assert forall i :: 1 <= i < |items| ==> items[i] == items[1..][i - 1];
    KeysOfFirst(items);
  }

  /** `for ch_no, tubing_id in tubing_ids.items(): self.set_tubing_id(ch_no,
      tubing_id)` over the channels `cs`, from the diameters `ids`: the first
      failure ends the loop. */
  function TubingAll(cs: seq<int>, addr: int, items: seq<(int, int)>, ids: map<int, real>, script: seq<Reply>)
    : Staged<map<int, real>>
    decreases |items|
  {
    if items == [] then Staged(Ok(ids), [])
    else
      var e := TubingEntry(cs, addr, items[0].0, items[0].1, script);
      if e.result.Err? then Staged(Err(e.result.error), e.cmds)
      else Prefixed(e.cmds, TubingAll(cs, addr, items[1..], ids[items[0].0 := e.result.value], Drop(script, |e.cmds|)))
  }

  /** When the tubing loop completes, every channel it names is known, and
      exactly those channels gained a diameter. */
  lemma {:induction false} TubingAllKeys(cs: seq<int>, addr: int, items: seq<(int, int)>, ids: map<int, real>, script: seq<Reply>)
    requires TubingAll(cs, addr, items, ids, script).result.Ok?
    ensures forall i :: 0 <= i < |items| ==> items[i].0 in cs
    ensures TubingAll(cs, addr, items, ids, script).result.value.Keys == ids.Keys + KeysOf(items)
    decreases |items|
  {
    if items != [] {
      var ch := items[0].0;
      var e := TubingEntry(cs, addr, ch, items[0].1, script);
      var rest := TubingAll(cs, addr, items[1..], ids[ch := e.result.value], Drop(script, |e.cmds|));
      assert TubingAll(cs, addr, items, ids, script).result == rest.result;
      TubingAllKeys(cs, addr, items[1..], ids[ch := e.result.value], Drop(script, |e.cmds|));
      KeysStep(cs, items, ids, e.result.value, rest.result.value);
    }
  }

  /** Taking the next entry of the tubing loop. */
  lemma TubingAllStep(cs: seq<int>, addr: int, items: seq<(int, int)>, i: nat, ids: map<int, real>, script: seq<Reply>)
    requires i < |items|
    ensures var e := TubingEntry(cs, addr, items[i].0, items[i].1, script);
      TubingAll(cs, addr, items[i..], ids, script) ==
        if e.result.Err? then Staged(Err(e.result.error), e.cmds)
        else Prefixed(e.cmds, TubingAll(cs, addr, items[i + 1..], ids[items[i].0 := e.result.value], Drop(script, |e.cmds|)))
  {
    assert items[i..][0] == items[i] && items[i..][1..] == items[i + 1..];
  }

  /** Partway through the tubing loop whose whole outcome is whole: the
      first i entries went through, leaving the diameters ids, and wrote
      the commands done. */
  ghost predicate TubingMidway(cs: seq<int>, addr: int, items: seq<(int, int)>, whole: Staged<map<int, real>>,
                               s0: seq<Reply>, w0: seq<string>, i: nat, ids: map<int, real>, done: seq<string>,
                               written: seq<string>, replies: seq<Reply>)
  {
    && i <= |items| && written == w0 + Frames(done) && replies == Drop(s0, |done|)
    && whole == Prefixed(done, TubingAll(cs, addr, items[i..], ids, replies))
  }

  /** The tubing loop ended on error e after writing the commands done. */
  ghost predicate TubingFailed(whole: Staged<map<int, real>>, s0: seq<Reply>, w0: seq<string>, e: PumpError,
                               done: seq<string>, written: seq<string>, replies: seq<Reply>)
  {
    && written == w0 + Frames(done) && replies == Drop(s0, |done|)
    && whole == Staged(Err(e), done)
  }

  /** The state after one more entry of the tubing loop that succeeded, on plain values. */
  lemma TubingStepped(cs: seq<int>, addr: int, items: seq<(int, int)>, whole: Staged<map<int, real>>, s0: seq<Reply>,
                      w0: seq<string>, i: nat, ids: map<int, real>, done: seq<string>, w1: seq<string>,
                      s1: seq<Reply>, e: Staged<real>, written: seq<string>, replies: seq<Reply>)
    requires i < |items| && TubingMidway(cs, addr, items, whole, s0, w0, i, ids, done, w1, s1)
    requires e == TubingEntry(cs, addr, items[i].0, items[i].1, s1) && e.result.Ok?
    requires written == w1 + Frames(e.cmds) && replies == Drop(s1, |e.cmds|)
    ensures TubingMidway(cs, addr, items, whole, s0, w0, i + 1, ids[items[i].0 := e.result.value], done + e.cmds,
                         written, replies)
  {
    TubingAllStep(cs, addr, items, i, ids, s1);
    WrittenAfter(w0, w1, written, done, e.cmds);
    DropDrop(s0, |done|, |e.cmds|);
    var rest := TubingAll(cs, addr, items[i + 1..], ids[items[i].0 := e.result.value], replies);
    assert TubingAll(cs, addr, items[i..], ids, s1) == Prefixed(e.cmds, rest);
    PrefixedPrefixed(done, e.cmds, rest);
  }

  /** The state after one more entry of the tubing loop that failed, on plain values. */
  lemma TubingStopped(cs: seq<int>, addr: int, items: seq<(int, int)>, whole: Staged<map<int, real>>, s0: seq<Reply>,
                      w0: seq<string>, i: nat, ids: map<int, real>, done: seq<string>, w1: seq<string>,
                      s1: seq<Reply>, e: Staged<real>, written: seq<string>, replies: seq<Reply>)
    requires i < |items| && TubingMidway(cs, addr, items, whole, s0, w0, i, ids, done, w1, s1)
    requires e == TubingEntry(cs, addr, items[i].0, items[i].1, s1) && e.result.Err?
    requires written == w1 + Frames(e.cmds) && replies == Drop(s1, |e.cmds|)
    ensures TubingFailed(whole, s0, w0, e.result.error, done + e.cmds, written, replies)
  {
    TubingAllStep(cs, addr, items, i, ids, s1);
    WrittenAfter(w0, w1, written, done, e.cmds);
    DropDrop(s0, |done|, |e.cmds|);
    assert TubingAll(cs, addr, items[i..], ids, s1) == Staged(Err(e.result.error), e.cmds);
  }

  /** One turn of the tubing loop. */
  method TubingAdvance(port: Port, cs: seq<int>, addr: int, items: seq<(int, int)>, i: nat, ids: map<int, real>,
                       ghost whole: Staged<map<int, real>>, ghost s0: seq<Reply>, ghost w0: seq<string>,
                       ghost done: seq<string>)
    returns (failed: Option<PumpError>, ids1: map<int, real>, ghost done1: seq<string>)
    requires i < |items| && TubingMidway(cs, addr, items, whole, s0, w0, i, ids, done, port.written, port.replies)
    modifies port
    ensures failed.None? ==> TubingMidway(cs, addr, items, whole, s0, w0, i + 1, ids1, done1, port.written, port.replies)
    ensures failed.Some? ==> TubingFailed(whole, s0, w0, failed.value, done1, port.written, port.replies)
  {
    ghost var s1, w1 := port.replies, port.written;
    var e := SetTubingEntry(port, cs, addr, items[i].0, items[i].1);
    done1 := done + e.cmds;
    if e.result.Err? {
      TubingStopped(cs, addr, items, whole, s0, w0, i, ids, done, w1, s1, e, port.written, port.replies);
      failed, ids1 := Some(e.result.error), ids;
    } else {
      TubingStepped(cs, addr, items, whole, s0, w0, i, ids, done, w1, s1, e, port.written, port.replies);
      failed, ids1 := None, ids[items[i].0 := e.result.value];
    }
  }

  /** The tubing loop of the constructors; the diameters are passed in and returned. */
  method SetTubingIds(port: Port, cs: seq<int>, addr: int, items: seq<(int, int)>, ids0: map<int, real>)
    returns (r: Result<map<int, real>>)
    modifies port
    ensures var st := TubingAll(cs, addr, items, ids0, old(port.replies));
      && r == st.result && port.written == old(port.written) + Frames(st.cmds)
      && port.replies == Drop(old(port.replies), |st.cmds|)
  {
    ghost var s0, w0 := port.replies, port.written;
    ghost var whole := TubingAll(cs, addr, items, ids0, s0);
    ghost var done: seq<string> := [];
    assert items[0..] == items && w0 + Frames([]) == w0;
    var ids := ids0;
    var i := 0;
    var failed: Option<PumpError> := None;
    while i < |items| && failed.None?
      invariant i <= |items|
      invariant failed.None? ==> TubingMidway(cs, addr, items, whole, s0, w0, i, ids, done, port.written, port.replies)
      invariant failed.Some? ==> TubingFailed(whole, s0, w0, failed.value, done, port.written, port.replies)
    {
      failed, ids, done := TubingAdvance(port, cs, addr, items, i, ids, whole, s0, w0, done);
      i := i + 1;
    }
    if failed.None? {
      assert items[i..] == [];
      assert done + [] == done;
      r := Ok(ids);
    } else {
      r := Err(failed.value);
    }
  }

  // ---------------------------------------------------------------------
  // The pump's identification

  /** The three words of the reply to `{addr}#`. */
  datatype PumpInfo = PumpInfo(modelNo: string, swVer: string, headCode: string)

  function InfoReply(line: string): (r: Result<PumpInfo>)
    ensures r.Ok? <==> ParseQueryReply(line, [StrField, StrField, StrField]).Ok?
    ensures r.Err? ==> r.error == ParseQueryReply(line, [StrField, StrField, StrField]).error
    ensures r.Ok? ==> var q := ParseQueryReply(line, [StrField, StrField, StrField]);
      r.value == PumpInfo(q.value[0].s, q.value[1].s, q.value[2].s)
  {
    var q := ParseQueryReply(line, [StrField, StrField, StrField]);
    if q.Err? then Err(q.error) else Ok(PumpInfo(q.value[0].s, q.value[1].s, q.value[2].s))
  }

  /** `_ask_pump_info`. */
  method AskPumpInfo(port: Port, addr: int) returns (r: Result<PumpInfo>)
    modifies port
    ensures port.written == old(port.written) + Frames([PumpInfoCmd(addr)])
    ensures port.replies == Drop(old(port.replies), 1)
    ensures r == InfoReply(LineText(NthReply(old(port.replies), 0)))
  {
    var q := RunQuery(port, PumpInfoCmd(addr), [StrField, StrField, StrField]);
    r := if q.Err? then Err(q.error) else Ok(PumpInfo(q.value[0].s, q.value[1].s, q.value[2].s));
    RestReplies(old(port.replies));
    assert Frames([PumpInfoCmd(addr)]) == [Frame(PumpInfoCmd(addr))];
  }

  /** `_ask_serial_no`: one string field, so the whole stripped line. */
  function SerialReply(line: string): (r: Result<string>)
    ensures r.Ok? <==> ParseQueryReply(line, [StrField]).Ok?
    ensures r.Err? ==> r.error == ParseQueryReply(line, [StrField]).error
  {
    var q := ParseQueryReply(line, [StrField]);
    if q.Err? then Err(q.error) else Ok(q.value[0].s)
  }

  /** A serial number is the reply line without its surrounding whitespace,
      inner spaces included; only a blank line is refused, as a timeout. */
  lemma SerialIsWholeLine(line: string)
    ensures Strip(line) == [] ==> SerialReply(line) == Err(CommandTimeout)
    ensures Strip(line) != [] ==> SerialReply(line) == Ok(Strip(line))
  {
    var s := Strip(line);
    if s != [] {
      StripSpec(line);
      RSplitNoBudget(s);
      assert TrimRight(s) == s by {
        TrimRightSpec(s);
      }
    }
  }

  method AskSerialNo(port: Port, addr: int) returns (r: Result<string>)
    modifies port
    ensures port.written == old(port.written) + Frames([SerialNoCmd(addr)])
    ensures port.replies == Drop(old(port.replies), 1)
    ensures r == SerialReply(LineText(NthReply(old(port.replies), 0)))
  {
    var q := RunQuery(port, SerialNoCmd(addr), [StrField]);
    r := if q.Err? then Err(q.error) else Ok(q.value[0].s);
    RestReplies(old(port.replies));
    assert Frames([SerialNoCmd(addr)]) == [Frame(SerialNoCmd(addr))];
  }

  /** `_ask_num_channels`: one integer field. */
  function CountReply(line: string): (r: Result<int>)
    ensures r.Ok? <==> ParseQueryReply(line, [IntField]).Ok?
    ensures r.Err? ==> r.error == ParseQueryReply(line, [IntField]).error
    ensures r.Ok? ==> r.value == ParseQueryReply(line, [IntField]).value[0].i
  {
    var q := ParseQueryReply(line, [IntField]);
    if q.Err? then Err(q.error) else Ok(q.value[0].i)
  }

  method AskNumChannels(port: Port, addr: int) returns (r: Result<int>)
    modifies port
    ensures port.written == old(port.written) + Frames([ChannelCountCmd(addr)])
    ensures port.replies == Drop(old(port.replies), 1)
    ensures r == CountReply(LineText(NthReply(old(port.replies), 0)))
  {
    var q := RunQuery(port, ChannelCountCmd(addr), [IntField]);
    r := if q.Err? then Err(q.error) else Ok(q.value[0].i);
    RestReplies(old(port.replies));
    assert Frames([ChannelCountCmd(addr)]) == [Frame(ChannelCountCmd(addr))];
  }

  /** `_run_cmd(f"{addr}~1")`. */
  method SelectChannelAddressing(port: Port, addr: int) returns (e: Option<PumpError>)
    modifies port
    ensures port.written == old(port.written) + Frames([InitCmd(addr)])
    ensures port.replies == Drop(old(port.replies), 1)
    ensures e == CommandError(NthReply(old(port.replies), 0))
  {
    e := PerformCommand(port, InitCmd(addr));
    RestReplies(old(port.replies));
    assert Frames([InitCmd(addr)]) == [Frame(InitCmd(addr))];
  }

  // ---------------------------------------------------------------------
  // The package constructor's opening exchanges

  /** What the pump reports about itself before the channels are set up. */
  datatype Identity = Identity(serialNo: string, channelCount: int)

  /** The opening of the package constructor: `_ask_serial_no`, the optional
      check against the expected serial number, `_ask_num_channels` and
      `~1`, in that order; the first failure ends construction. */
  function Identify(addr: int, expected: Option<string>, script: seq<Reply>): (st: Staged<Identity>)
    ensures 1 <= |st.cmds| <= 3
    ensures st.cmds == [SerialNoCmd(addr), ChannelCountCmd(addr), InitCmd(addr)][..|st.cmds|]
    ensures st.result.Ok? ==> |st.cmds| == 3 && st.result.value.serialNo == Strip(LineText(NthReply(script, 0)))
    ensures st.result.Ok? && expected.Some? ==> st.result.value.serialNo == expected.value
    ensures st.result.Ok? ==> (CountReply(LineText(NthReply(script, 1))).Ok?
      && st.result.value.channelCount == CountReply(LineText(NthReply(script, 1))).value)
    ensures (expected.Some? && SerialReply(LineText(NthReply(script, 0))).Ok?
             && Strip(LineText(NthReply(script, 0))) != expected.value) ==>
      st == Staged(Err(SerialNoMismatch(expected.value, Strip(LineText(NthReply(script, 0))))), [SerialNoCmd(addr)])
  {
    var line := LineText(NthReply(script, 0));
    SerialIsWholeLine(line);
    var sn := SerialReply(line);
    var all := [SerialNoCmd(addr), ChannelCountCmd(addr), InitCmd(addr)];
    assert all[..1] == [SerialNoCmd(addr)] && all[..2] == [SerialNoCmd(addr), ChannelCountCmd(addr)] && all[..3] == all;
    if sn.Err? then Staged(Err(sn.error), [SerialNoCmd(addr)])
    else if expected.Some? && sn.value != expected.value then
      Staged(Err(SerialNoMismatch(expected.value, sn.value)), [SerialNoCmd(addr)])
    else
      var n := CountReply(LineText(NthReply(script, 1)));
      if n.Err? then Staged(Err(n.error), [SerialNoCmd(addr), ChannelCountCmd(addr)])
      else match CommandError(NthReply(script, 2))
        case Some(e) => Staged(Err(e), all)
        case None => Staged(Ok(Identity(sn.value, n.value)), all)
  }

  method IdentifyPump(port: Port, addr: int, expected: Option<string>) returns (st: Staged<Identity>)
    modifies port
    ensures st == Identify(addr, expected, old(port.replies))
    ensures port.written == old(port.written) + Frames(st.cmds) && port.replies == Drop(old(port.replies), |st.cmds|)
  {
    ghost var s0, w0 := port.replies, port.written;
    var sn := AskSerialNo(port, addr);
    if sn.Err? {
      st := Staged(Err(sn.error), [SerialNoCmd(addr)]);
    } else if expected.Some? && sn.value != expected.value {
      st := Staged(Err(SerialNoMismatch(expected.value, sn.value)), [SerialNoCmd(addr)]);
    } else {
      ghost var w1 := port.written;
      var n := AskNumChannels(port, addr);
      NthDrop(s0, 1, 0);
      DropDrop(s0, 1, 1);
      WrittenAfter(w0, w1, port.written, [SerialNoCmd(addr)], [ChannelCountCmd(addr)]);
      if n.Err? {
        st := Staged(Err(n.error), [SerialNoCmd(addr), ChannelCountCmd(addr)]);
      } else {
        ghost var w2 := port.written;
        var e := SelectChannelAddressing(port, addr);
        NthDrop(s0, 2, 0);
        DropDrop(s0, 2, 1);
        WrittenAfter(w0, w2, port.written, [SerialNoCmd(addr), ChannelCountCmd(addr)], [InitCmd(addr)]);
        var all := [SerialNoCmd(addr), ChannelCountCmd(addr), InitCmd(addr)];
        assert [SerialNoCmd(addr), ChannelCountCmd(addr)] + [InitCmd(addr)] == all;
        if e.Some? {
          st := Staged(Err(e.value), all);
        } else {
          st := Staged(Ok(Identity(sn.value, n.value)), all);
        }
      }
    }
  }
}
