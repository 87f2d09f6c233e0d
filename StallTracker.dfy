/** Stall detection of the package driver: per channel, the last odometer
    reading seen while the channel reported "running" and the time it last
    changed. A channel that keeps reporting "running" while its odometer stays
    put for two seconds or more is taken to have stalled. Time is in
    milliseconds of a monotonic clock. */
module StallTracker {

  /** `now - stamp >= 2` seconds. */
  const StallThresholdMs: int := 2000

  /** The reading a freshly reset channel pretends to have seen. */
  const NeverObserved: int := -1

  /** One channel's entry of `_last_odo_val` and `_last_odo_val_tstamp`. */
  datatype Track = Track(lastOdo: int, stamp: int)

  /** `_init_channel_odo`: reading -1, time 0. */
  const Fresh: Track := Track(NeverObserved, 0)

  /** What one "running" poll decides: keep going with an updated entry, or stall. */
  datatype Verdict = Running(next: Track) | Stall

  /** The part of `is_running` after the status byte was `+` and the odometer
      was read: a changed reading is stored with the current time; an unchanged
      one is a stall once the threshold has passed since the stored time. */
  function Observe(t: Track, reading: int, now: int): (v: Verdict)
    ensures v.Stall? <==> reading == t.lastOdo && now - t.stamp >= StallThresholdMs
    ensures v.Running? ==> v.next.lastOdo == reading
    ensures v.Running? && reading != t.lastOdo ==> v.next.stamp == now
    ensures v.Running? && reading == t.lastOdo ==> v.next == t
  {
    if reading != t.lastOdo then Running(Track(reading, now))
    else if now - t.stamp >= StallThresholdMs then Stall
    else Running(t)
  }

  /** After a reset, the first poll with a real (non-negative) odometer reading
      never stalls and starts the clock at that poll. */
  lemma FreshFirstPoll(reading: int, now: int)
    requires reading >= 0
    ensures Observe(Fresh, reading, now) == Running(Track(reading, now))
  {
  }

  /** One "running" poll: the odometer reading and the clock when it was taken. */
  datatype Poll = Poll(reading: int, now: int)

  datatype Outcome = Watching(track: Track) | StalledAt(index: nat)

  /** A run of consecutive "running" polls of one channel, starting from entry t:
      the entry left after all of them, or the index of the poll that stalled. */
  function Replay(t: Track, polls: seq<Poll>): (o: Outcome)
    ensures o.StalledAt? ==> o.index < |polls|
    decreases |polls|
  {
    if polls == [] then Watching(t)
    else
      match Observe(t, polls[0].reading, polls[0].now)
      case Stall => StalledAt(0)
      case Running(u) =>
        match Replay(u, polls[1..])
        case Watching(w) => Watching(w)
        case StalledAt(i) => StalledAt(i + 1)
  }

  /** Replaying one more poll after a run that kept watching. */
  lemma {:induction false} ReplaySnoc(t: Track, polls: seq<Poll>, p: Poll)
    requires Replay(t, polls).Watching?
    ensures var u := Replay(t, polls).track;
      Replay(t, polls + [p]) ==
        match Observe(u, p.reading, p.now)
        case Stall => StalledAt(|polls|)
        case Running(w) => Watching(w)
    decreases |polls|
  {
    if polls == [] {
      assert [] + [p] == [p];
      assert [p][1..] == [];
    } else {
      var v := Observe(t, polls[0].reading, polls[0].now);
      assert (polls + [p])[0] == polls[0];
      assert (polls + [p])[1..] == polls[1..] + [p];
      ReplaySnoc(v.next, polls[1..], p);
    }
  }

  /** A reported stall is justified: every poll before it kept watching, and at
      that poll the reading equalled the stored one with the threshold passed. */
  lemma {:induction false} StallIsJustified(t: Track, polls: seq<Poll>)
    requires Replay(t, polls).StalledAt?
    ensures var i := Replay(t, polls).index;
      && Replay(t, polls[..i]).Watching?
      && polls[i].reading == Replay(t, polls[..i]).track.lastOdo
      && polls[i].now - Replay(t, polls[..i]).track.stamp >= StallThresholdMs
    decreases |polls|
  {
    var i := Replay(t, polls).index;
    if i == 0 {
      assert polls[..0] == [];
    } else {
      var u := Observe(t, polls[0].reading, polls[0].now).next;
      StallIsJustified(u, polls[1..]);
      assert polls[1..][..i - 1] == polls[1..i];
      assert polls[..i][0] == polls[0] && polls[..i][1..] == polls[1..i];
    }
  }

  /** Each reading differs from the one before it (the first from the stored one). */
  predicate Advancing(first: int, polls: seq<Poll>) {
    && (polls != [] ==> polls[0].reading != first)
    && forall i :: 1 <= i < |polls| ==> polls[i].reading != polls[i - 1].reading
  }

  /** An odometer that moves at every poll never trips the detector, and the
      entry ends up holding the last reading and its time. */
  lemma {:induction false} AdvancingNeverStalls(t: Track, polls: seq<Poll>)
    requires Advancing(t.lastOdo, polls)
    ensures polls == [] ==> Replay(t, polls) == Watching(t)
    ensures polls != [] ==> Replay(t, polls) == Watching(Track(polls[|polls| - 1].reading, polls[|polls| - 1].now))
    decreases |polls|
  {
    if polls != [] {
      var u := Track(polls[0].reading, polls[0].now);
      var rest := polls[1..];
      assert Advancing(u.lastOdo, rest) by {
        forall i | 1 <= i < |rest|
          ensures rest[i].reading != rest[i - 1].reading
        {
          assert rest[i] == polls[i + 1] && rest[i - 1] == polls[i];
        }
        if rest != [] {
          assert rest[0] == polls[1];
        }
      }
      assert Observe(t, polls[0].reading, polls[0].now) == Running(u);
      AdvancingNeverStalls(u, rest);
      if rest != [] {
        assert rest[|rest| - 1] == polls[|polls| - 1];
      }
    }
  }

  /** No stall is reported while every poll falls within the threshold of a
      moment no later than the stored time. */
  lemma {:induction false} NoStallWithinThreshold(t: Track, polls: seq<Poll>, since: int)
    requires since <= t.stamp
    requires forall i :: 0 <= i < |polls| ==> since <= polls[i].now < since + StallThresholdMs
    ensures Replay(t, polls).Watching?
    decreases |polls|
  {
    if polls != [] {
      var v := Observe(t, polls[0].reading, polls[0].now);
      assert v.Running?;
      NoStallWithinThreshold(v.next, polls[1..], since);
    }
  }

  /** While the reading stays at the stored value, the first poll at least the
      threshold after the stored time stalls. */
  lemma {:induction false} HeldReadingStalls(t: Track, polls: seq<Poll>, j: nat)
    requires j < |polls|
    requires forall i :: 0 <= i <= j ==> polls[i].reading == t.lastOdo
    requires polls[j].now - t.stamp >= StallThresholdMs
    ensures Replay(t, polls).StalledAt? && Replay(t, polls).index <= j
    decreases j
  {
    if polls[0].now - t.stamp < StallThresholdMs {
      assert j > 0;
      var rest := polls[1..];
      assert forall i :: 0 <= i <= j - 1 ==> rest[i] == polls[i + 1];
      HeldReadingStalls(t, rest, j - 1);
    }
  }

  /** A channel just started whose odometer is frozen at a real reading stalls
      no later than the first poll two seconds after the first one. */
  lemma FrozenOdometerStalls(polls: seq<Poll>, j: nat)
    requires j < |polls| && polls[0].reading >= 0
    requires forall i :: 0 <= i <= j ==> polls[i].reading == polls[0].reading
    requires polls[j].now - polls[0].now >= StallThresholdMs
    ensures Replay(Fresh, polls).StalledAt? && 1 <= Replay(Fresh, polls).index <= j
  {
    var u := Track(polls[0].reading, polls[0].now);
    assert Observe(Fresh, polls[0].reading, polls[0].now) == Running(u);
    var rest := polls[1..];
    assert j >= 1;
    assert forall i :: 0 <= i <= j - 1 ==> rest[i] == polls[i + 1];
    HeldReadingStalls(u, rest, j - 1);
  }
}
