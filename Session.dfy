/** Pieces of the session logic that both driver versions share: runs of
    exchanges that stop at the first error, the channel list, and the
    direction configuration built at construction. */
module Session {
  import opened PumpTypes
  import opened Transport

  /** One checked exchange whose answer is not used: a command acknowledged
      with `*`, or a query whose line must parse. */
  datatype Exchange = Command(text: string) | Query(text: string, types: seq<FieldType>)

  /** The error `_run_cmd` raises on a given reply to a command, if any. */
  function CommandError(reply: Reply): (e: Option<PumpError>)
    ensures e.None? <==> AckByte(reply) == Some('*')
    ensures e.Some? ==> e.value.CommandTimeout? || e.value.InvalidResponse? || e.value.RemoteError?
  {
    var a := ClassifyAck(AckByte(reply), true);
    if a.Err? then Some(a.error) else None
  }

  /** The error an exchange raises on a given reply, if any. */
  function Check(x: Exchange, reply: Reply): (e: Option<PumpError>)
    ensures x.Command? ==> e == CommandError(reply)
    ensures x.Query? ==> (e.None? <==> ParseQueryReply(LineText(reply), x.types).Ok?)
  {
    match x
    case Command(_) => CommandError(reply)
    case Query(_, types) =>
      var q := ParseQueryReply(LineText(reply), types);
      if q.Err? then Some(q.error) else None
  }

  /** The replies left after k reads. */
  function Drop(script: seq<Reply>, k: nat): seq<Reply> {
    if k <= |script| then script[k..] else []
  }

  /** The j-th reply after k reads is the (k + j)-th of the script. */
  lemma NthDrop(script: seq<Reply>, k: nat, j: nat)
    ensures NthReply(Drop(script, k), j) == NthReply(script, k + j)
  {
  }

  lemma DropDrop(script: seq<Reply>, a: nat, b: nat)
    ensures Drop(Drop(script, a), b) == Drop(script, a + b)
  {
  }

  lemma DropRest(script: seq<Reply>, k: nat)
    ensures Rest(Drop(script, k)) == Drop(script, k + 1)
  {
  }

  /** After one read, the next reply is the one after the first. */
  lemma RestReplies(script: seq<Reply>)
    ensures Rest(script) == Drop(script, 1)
    ensures NthReply(Rest(script), 0) == NthReply(script, 1)
    ensures Rest(Rest(script)) == Drop(script, 2)
  {
    DropRest(script, 1);
  }

  /** Exchanges run in order against the replies to come: how many were
      written, and the error that ended the run early, if one did. */
  datatype RunOutcome = RunOutcome(sent: nat, error: Option<PumpError>)

  function Shift(k: nat, o: RunOutcome): RunOutcome {
    RunOutcome(o.sent + k, o.error)
  }

  function RunAll(xs: seq<Exchange>, script: seq<Reply>): (o: RunOutcome)
    ensures o.sent <= |xs|
    ensures o.error.None? <==> o.sent == |xs| && forall i :: 0 <= i < |xs| ==> Check(xs[i], NthReply(script, i)).None?
    ensures o.error.Some? ==> o.sent >= 1 && o.error == Check(xs[o.sent - 1], NthReply(script, o.sent - 1))
    ensures forall i :: 0 <= i < o.sent - 1 ==> Check(xs[i], NthReply(script, i)).None?
    decreases |xs|
  {
    if xs == [] then RunOutcome(0, None)
    else
      match Check(xs[0], NthReply(script, 0))
      case Some(e) => RunOutcome(1, Some(e))
      case None =>
        var o := RunAll(xs[1..], Rest(script));
        assert forall i :: 0 <= i < |xs| - 1 ==> xs[1..][i] == xs[i + 1] && NthReply(Rest(script), i) == NthReply(script, i + 1);
        Shift(1, o)
  }

  /** The frames written for a run of exchanges. */
  function FramesOf(xs: seq<Exchange>): (ws: seq<string>)
    ensures |ws| == |xs| && forall i :: 0 <= i < |xs| ==> ws[i] == Frame(xs[i].text)
  {
    seq(|xs|, i requires 0 <= i < |xs| => Frame(xs[i].text))
  }

  /** An optional error as the result of an operation that returns nothing. */
  function OrOk(e: Option<PumpError>): (r: Result<()>)
    ensures r.Ok? <==> e.None?
    ensures e.Some? ==> r.error == e.value
  {
    match e
    case None => Ok(())
    case Some(err) => Err(err)
  }

  /** Taking the next exchange of a run: the whole run is that step followed
      by the rest, and the frames written so far grow by one. */
  lemma RunStep(xs: seq<Exchange>, i: nat, script: seq<Reply>)
    requires i < |xs|
    ensures RunAll(xs[i..], script) ==
      if Check(xs[i], NthReply(script, 0)).Some? then RunOutcome(1, Check(xs[i], NthReply(script, 0)))
      else Shift(1, RunAll(xs[i + 1..], Rest(script)))
    ensures FramesOf(xs[..i + 1]) == FramesOf(xs[..i]) + [Frame(xs[i].text)]
  {
    assert xs[i..][0] == xs[i] && xs[i..][1..] == xs[i + 1..];
  }

  lemma RunDone(xs: seq<Exchange>, script: seq<Reply>)
    ensures RunAll(xs[|xs|..], script) == RunOutcome(0, None)
    ensures xs[..|xs|] == xs
  {
    assert xs[|xs|..] == [];
  }

  /** Partway through a run: the first i exchanges went through, their frames
      were written after w0, and their replies were consumed from s0. */
  ghost predicate Midway(xs: seq<Exchange>, i: nat, s0: seq<Reply>, w0: seq<string>, written: seq<string>, replies: seq<Reply>) {
    && i <= |xs|
    && written == w0 + FramesOf(xs[..i])
    && replies == Drop(s0, i)
    && RunAll(xs, s0) == Shift(i, RunAll(xs[i..], replies))
  }

  /** A run that is over: exactly the frames RunAll counts were written. */
  ghost predicate Ended(xs: seq<Exchange>, s0: seq<Reply>, w0: seq<string>, written: seq<string>, replies: seq<Reply>) {
    && written == w0 + FramesOf(xs[..RunAll(xs, s0).sent])
    && replies == Drop(s0, RunAll(xs, s0).sent)
  }

  lemma StartRun(xs: seq<Exchange>, s0: seq<Reply>, w0: seq<string>)
    ensures Midway(xs, 0, s0, w0, w0, s0)
  {
    assert xs[..0] == [] && xs[0..] == xs;
    assert w0 + [] == w0;
  }

  /** One exchange of a run, taken: either it failed and the run is over with
      its error, or the run is one step further. */
  lemma StepRun(xs: seq<Exchange>, i: nat, s0: seq<Reply>, w0: seq<string>,
                written: seq<string>, replies: seq<Reply>, e: Option<PumpError>)
    requires i < |xs| && Midway(xs, i, s0, w0, written, replies)
    requires e == Check(xs[i], NthReply(replies, 0))
    ensures e.Some? ==> Ended(xs, s0, w0, written + [Frame(xs[i].text)], Rest(replies)) && RunAll(xs, s0).error == e
    ensures e.None? ==> Midway(xs, i + 1, s0, w0, written + [Frame(xs[i].text)], Rest(replies))
  {
    RunStep(xs, i, replies);
    DropRest(s0, i);
    assert w0 + FramesOf(xs[..i]) + [Frame(xs[i].text)] == w0 + FramesOf(xs[..i + 1]);
  }

  lemma FinishRun(xs: seq<Exchange>, s0: seq<Reply>, w0: seq<string>, written: seq<string>, replies: seq<Reply>)
    requires Midway(xs, |xs|, s0, w0, written, replies)
    ensures RunAll(xs, s0) == RunOutcome(|xs|, None)
    ensures Ended(xs, s0, w0, written, replies)
  {
    RunDone(xs, replies);
  }

  /** The next exchange of a run, performed on the port. */
  method Advance(port: Port, xs: seq<Exchange>, i: nat, ghost s0: seq<Reply>, ghost w0: seq<string>)
    returns (e: Option<PumpError>)
    requires i < |xs| && Midway(xs, i, s0, w0, port.written, port.replies)
    modifies port
    ensures e.Some? ==> Ended(xs, s0, w0, port.written, port.replies) && RunAll(xs, s0).error == e
    ensures e.None? ==> Midway(xs, i + 1, s0, w0, port.written, port.replies)
  {
    ghost var before := port.replies;
    e := Perform(port, xs[i]);
    StepRun(xs, i, s0, w0, old(port.written), before, e);
  }

  /** `_run_cmd` with the success check, for a command whose answer is discarded. */
  method PerformCommand(port: Port, cmd: string) returns (e: Option<PumpError>)
    modifies port
    ensures port.written == old(port.written) + [Frame(cmd)]
    ensures port.replies == Rest(old(port.replies))
    ensures e == CommandError(NthReply(old(port.replies), 0))
  {
    var a := RunCmd(port, cmd, true);
    e := if a.Err? then Some(a.error) else None;
  }

  /** `_run_cmd` or `_run_query` for one exchange whose answer is discarded. */
  method Perform(port: Port, x: Exchange) returns (e: Option<PumpError>)
    modifies port
    ensures port.written == old(port.written) + [Frame(x.text)]
    ensures port.replies == Rest(old(port.replies))
    ensures e == Check(x, NthReply(old(port.replies), 0))
  {
    match x
    case Command(t) =>
      e := PerformCommand(port, t);
    case Query(t, types) =>
      var q := RunQuery(port, t, types);
      e := if q.Err? then Some(q.error) else None;
  }

  /** A fixed run of exchanges, each raising on its own failure: it stops at
      the first error. */
  method RunExchanges(port: Port, xs: seq<Exchange>) returns (e: Option<PumpError>)
    modifies port
    ensures Ended(xs, old(port.replies), old(port.written), port.written, port.replies)
    ensures e == RunAll(xs, old(port.replies)).error
  {
    ghost var s0, w0 := port.replies, port.written;
    StartRun(xs, s0, w0);
    var i := 0;
    e := None;
    while i < |xs| && e.None?
      invariant i <= |xs|
      invariant e.None? ==> Midway(xs, i, s0, w0, port.written, port.replies)
      invariant e.Some? ==> Ended(xs, s0, w0, port.written, port.replies) && RunAll(xs, s0).error == e
    {
      e := Advance(port, xs, i, s0, w0);
      i := i + 1;
    }
    if e.None? {
      FinishRun(xs, s0, w0, port.written, port.replies);
    }
  }

  // ---------------------------------------------------------------------
  // Channels and directions

  /** `list(range(1, n + 1))`. */
  function Channels(n: int): (cs: seq<int>)
    ensures |cs| == (if n < 0 then 0 else n)
    ensures forall i :: 0 <= i < |cs| ==> cs[i] == i + 1
    ensures forall c :: c in cs <==> 1 <= c <= n
  {
    var k: nat := if n < 0 then 0 else n;
    var cs := seq(k, i requires 0 <= i < k => i + 1);
    forall c | 1 <= c <= n
      ensures c in cs
    {
      assert cs[c - 1] == c;
    }
    cs
  }

  /** `{x: DEFAULT_DISPENSE_DIR for x in channel_nos}`. */
  function DefaultDirs(cs: seq<int>): (m: map<int, PumpDirection>)
    ensures forall c :: c in m <==> c in cs
    ensures forall c :: c in m ==> m[c] == CW
  {
    map c | c in cs :: CW
  }

  /** The keys of a caller's dictionary, given as its items in order. */
  predicate DistinctKeys<V>(items: seq<(int, V)>) {
    forall i, j :: 0 <= i < j < |items| ==> items[i].0 != items[j].0
  }

  /** `{k: PumpDirection(v) for (k, v) in dispense_dirs.items()}`: converted in
      order; the first value that names no direction raises; a later entry
      for the same key wins. */
  function ConvertDirs(items: seq<(int, DirectionArg)>): (r: Result<map<int, PumpDirection>>)
    ensures r.Ok? <==> forall i :: 0 <= i < |items| ==> ToDirection(items[i].1).Ok?
    decreases |items|
  {
    if items == [] then Ok(map[])
    else
      match ToDirection(items[0].1)
      case Err(e) => Err(e)
      case Ok(d) =>
        match ConvertDirs(items[1..])
        case Err(e) => Err(e)
        case Ok(m) =>
          assert forall i :: 1 <= i < |items| ==> items[1..][i - 1] == items[i];
          Ok(map[items[0].0 := d] + m)
  }

  /** A failed conversion reports the first value that names no direction. */
  lemma {:induction false} ConvertDirsFirstError(items: seq<(int, DirectionArg)>)
    requires ConvertDirs(items).Err?
    ensures exists i :: (0 <= i < |items| && ToDirection(items[i].1) == Err(ConvertDirs(items).error)
      && forall j :: 0 <= j < i ==> ToDirection(items[j].1).Ok?)
    decreases |items|
  {
    if ToDirection(items[0].1).Err? {
      assert ToDirection(items[0].1) == Err(ConvertDirs(items).error);
    } else {
      var rest := items[1..];
      ConvertDirsFirstError(rest);
      var i :| 0 <= i < |rest| && ToDirection(rest[i].1) == Err(ConvertDirs(rest).error)
        && forall j :: 0 <= j < i ==> ToDirection(rest[j].1).Ok?;
      assert ToDirection(items[i + 1].1) == Err(ConvertDirs(items).error);
      assert forall j :: 1 <= j < i + 1 ==> items[j] == rest[j - 1];
    }
  }

  /** A successful conversion has one entry per key, holding the converted value. */
  lemma {:induction false} ConvertDirsEntries(items: seq<(int, DirectionArg)>)
    requires ConvertDirs(items).Ok? && DistinctKeys(items)
    ensures forall k :: k in ConvertDirs(items).value <==> exists i :: 0 <= i < |items| && items[i].0 == k
    ensures forall i :: 0 <= i < |items| ==> ConvertDirs(items).value[items[i].0] == ToDirection(items[i].1).value
    decreases |items|
  {
    if items != [] {
      var rest := items[1..];
      assert DistinctKeys(rest) by {
        forall i, j | 0 <= i < j < |rest| ensures rest[i].0 != rest[j].0 {
          assert rest[i] == items[i + 1] && rest[j] == items[j + 1];
        }
      }
      ConvertDirsEntries(rest);
      var k0, d := items[0].0, ToDirection(items[0].1).value;
      var tail := ConvertDirs(rest).value;
      var m := ConvertDirs(items).value;
      assert m == map[k0 := d] + tail;
      forall k ensures k in m <==> exists i :: 0 <= i < |items| && items[i].0 == k {
        if k in m && k != k0 {
          var i :| 0 <= i < |rest| && rest[i].0 == k;
          assert items[i + 1] == rest[i];
        } else if k in m {
          assert items[0].0 == k;
        }
      }
      assert k0 !in tail;
      forall i | 0 <= i < |items| ensures m[items[i].0] == ToDirection(items[i].1).value {
        if i > 0 {
          assert items[i] == rest[i - 1];
        }
      }
    }
  }

  /** The dispense directions after construction: every channel starts
      clockwise, and each caller entry replaces (or adds) its channel's. */
  lemma ConfiguredDirs(cs: seq<int>, items: seq<(int, DirectionArg)>, c: int)
    requires ConvertDirs(items).Ok? && DistinctKeys(items)
    ensures var m := DefaultDirs(cs) + ConvertDirs(items).value;
      && (c in m <==> c in cs || exists i :: 0 <= i < |items| && items[i].0 == c)
      && (forall i :: 0 <= i < |items| && items[i].0 == c ==> m[c] == ToDirection(items[i].1).value)
      && ((c in cs && forall i :: 0 <= i < |items| ==> items[i].0 != c) ==> m[c] == CW)
  {
    ConvertDirsEntries(items);
  }
}
