/** The live-bandwidth ring (internal/stats/bandwidth.go). */
module BandwidthRing {
  import opened Bytes

  /** Nanoseconds; 0 is the zero time that IsZero recognises. */
  type Time = int

  datatype Sample = Sample(t: Time, count: nat)

  const CAPACITY: nat := 50
  const WINDOW: int := 5_000_000_000

  /** Position of the oldest of the 50 most recent entries. */
  function Oldest(n: nat): nat { if n <= 50 then 0 else n - 50 }

  /** The first entry from position i on that is not before the cutoff. */
  function FirstFrom(h: seq<Sample>, i: nat, cutoff: Time): Option<Sample>
    requires i <= |h|
    decreases |h| - i
  {
    if i == |h| then None
    else if h[i].t >= cutoff then Some(h[i])
    else FirstFrom(h, i + 1, cutoff)
  }

  lemma {:induction false} FirstFromMeans(h: seq<Sample>, i: nat, cutoff: Time)
    requires i <= |h|
    ensures FirstFrom(h, i, cutoff).None? <==> forall k :: i <= k < |h| ==> h[k].t < cutoff
    ensures FirstFrom(h, i, cutoff).Some? ==>
              exists k :: i <= k < |h| && h[k] == FirstFrom(h, i, cutoff).value && h[k].t >= cutoff
                && forall j :: i <= j < k ==> h[j].t < cutoff
    decreases |h| - i
  {
    if i < |h| && h[i].t < cutoff {
      FirstFromMeans(h, i + 1, cutoff);
      if FirstFrom(h, i, cutoff).Some? {
        var k :| i + 1 <= k < |h| && h[k] == FirstFrom(h, i + 1, cutoff).value && h[k].t >= cutoff
          && forall j :: i + 1 <= j < k ==> h[j].t < cutoff;
        assert forall j :: i <= j < k ==> h[j].t < cutoff;
      }
    }
  }

  class BwRing {
    var samples: array<Sample>
    var head: nat
    var count: nat
    ghost var history: seq<Sample> // every sample ever pushed

    ghost predicate Valid()
      reads this, samples
    {
      && samples.Length == CAPACITY
      && head == |history| % 50
      && count == (if |history| < 50 then |history| else 50)
      && forall j :: 0 <= j < |history| && |history| - 50 <= j ==> samples[j % 50] == history[j]
    }

    constructor ()
      ensures Valid() && history == [] && fresh(samples)
    {
      samples := new Sample[50](_ => Sample(0, 0));
      head, count := 0, 0;
      history := [];
    }

    /** push: the ring represents one more sample. */
    method Push(sample: Sample)
      requires Valid()
      modifies this, samples
      ensures Valid() && samples == old(samples) && history == old(history) + [sample]
    {
      samples[head] := sample;
      head := (head + 1) % CAPACITY;
      if count < CAPACITY {
        count := count + 1;
      }
      history := history + [sample];
    }

    /** oldestWithin: the first of the last 50 samples, in order, that is not before the cutoff. */
    method OldestWithin(cutoff: Time) returns (r: Option<Sample>)
      requires Valid()
      ensures r == FirstFrom(history, Oldest(|history|), cutoff)
    {
      if count == 0 { return None; }
      var start := (head - count + CAPACITY) % CAPACITY;
      var ndx := 0;
      while ndx < count
        invariant 0 <= ndx <= count
        invariant FirstFrom(history, Oldest(|history|), cutoff) == FirstFrom(history, Oldest(|history|) + ndx, cutoff)
      {
        var idx := (start + ndx) % CAPACITY;
        SlotOf(|history|, head, count, start, ndx);
        if samples[idx].t >= cutoff {
          return Some(samples[idx]);
        }
        ndx := ndx + 1;
      }
      r := None;
    }
  }

  /** Counting count slots back from head and ndx forward again finds entry Oldest(n) + ndx. */
  lemma SlotOf(n: nat, head: nat, count: nat, start: nat, ndx: nat)
    requires head == n % 50 && count == (if n < 50 then n else 50) && ndx < count
    requires start == (head - count + 50) % 50
    ensures (start + ndx) % 50 == (Oldest(n) + ndx) % 50
  {
    if n >= 50 {
      SameSlot(n % 50 + ndx, n / 50);
      SameSlot(n % 50 + ndx, n / 50 - 1);
    }
  }

  lemma {:induction false} SameSlot(k: nat, rounds: nat)
    ensures (k + 50 * rounds) % 50 == k % 50
  {
    if rounds > 0 {
      SameSlot(k, rounds - 1);
    }
  }
}

/** Start/Pause/Stop histories and the time they count as active. */
module ActiveTime {
  import opened BandwidthRing

  datatype Event = Start(at: Time) | Pause(at: Time) | Stop(at: Time)

  /** late: how long after the stop a pause that was open at the stop got resumed. */
  datatype Phase =
    | Fresh
    | Running(since: Time)
    | Paused(since: Time)
    | Stopped(at: Time)
    | StoppedPaused(since: Time, at: Time)

  datatype Replay = Replay(phase: Phase, active: int, late: int)

  /** Effect of one call: intervals are added up when they end; calls out of turn do nothing. */
  function After(r: Replay, e: Event): Replay {
    match (e, r.phase)
    case (Start(t), Fresh) => r.(phase := Running(t))
    case (Start(t), Paused(_)) => r.(phase := Running(t))
    case (Start(t), StoppedPaused(_, at)) => r.(phase := Stopped(at), late := t - at)
    case (Pause(t), Running(s)) => r.(phase := Paused(t), active := r.active + (t - s))
    case (Stop(t), Running(s)) => r.(phase := Stopped(t), active := r.active + (t - s))
    case (Stop(t), Paused(s)) => r.(phase := StoppedPaused(s, t))
    case _ => r
  }

  function ReplayAll(h: seq<Event>): Replay {
    if h == [] then Replay(Fresh, 0, 0) else After(ReplayAll(h[..|h| - 1]), h[|h| - 1])
  }

  /** Sum of the running intervals up to now. */
  function Active(h: seq<Event>, now: Time): int {
    var r := ReplayAll(h);
    r.active + if r.phase.Running? then now - r.phase.since else 0
  }

  /** Length, up to now or the stop, of a pause that nothing has resumed. */
  function OpenPause(h: seq<Event>, now: Time): int {
    match ReplayAll(h).phase
    case Paused(s) => now - s
    case StoppedPaused(s, at) => at - s
    case _ => 0
  }

  function Late(h: seq<Event>): int { ReplayAll(h).late }

  /** The clock never runs backwards and never shows the zero time. */
  ghost predicate Monotone(h: seq<Event>, now: Time) {
    && (forall i :: 0 <= i < |h| ==> 0 < h[i].at <= now)
    && (forall i, j :: 0 <= i < j < |h| ==> h[i].at <= h[j].at)
    && 0 < now
  }

  lemma {:induction false} ReplayBounds(h: seq<Event>, now: Time)
    requires Monotone(h, now)
    ensures var r := ReplayAll(h);
            && r.active >= 0 && r.late >= 0
            && (!r.phase.Stopped? ==> r.late == 0)
            && (r.phase.Running? || r.phase.Paused? ==> 0 < r.phase.since <= now)
            && (r.phase.Stopped? ==> 0 < r.phase.at <= now)
            && (r.phase.StoppedPaused? ==> 0 < r.phase.since <= r.phase.at <= now)
  {
    if h != [] {
      var p := h[..|h| - 1];
      ReplayBounds(p, h[|h| - 1].at);
    }
  }

  // ---- Active time, instant by instant ----

  /** The clock has been stopped: a Stop call came after a Start. */
  ghost predicate HasStopped(h: seq<Event>) { exists i, j :: 0 <= i < j < |h| && h[i].Start? && h[j].Stop? }

  /** The latest Start, Pause or Stop that did anything is a Start, and nothing has stopped the clock. */
  ghost predicate Runs(h: seq<Event>) {
    !HasStopped(h) && exists i :: 0 <= i < |h| && h[i].Start? && forall j :: i < j < |h| ==> h[j].Start?
  }

  /** The calls made by time t. */
  function Until(h: seq<Event>, t: Time): seq<Event> {
    if h == [] || h[|h| - 1].at <= t then h else Until(h[..|h| - 1], t)
  }

  /** How many instants before now the clock runs. */
  ghost function Instants(h: seq<Event>, now: nat): nat {
    if now == 0 then 0 else Instants(h, now - 1) + if Runs(Until(h, now - 1)) then 1 else 0
  }

  /** What the phase of a replay says about the calls. */
  ghost predicate PhaseMeans(h: seq<Event>, p: Phase) {
    && (p.Running? <==> Runs(h))
    && (p.Stopped? || p.StoppedPaused? <==> HasStopped(h))
    && (p.Fresh? <==> forall i :: 0 <= i < |h| ==> !h[i].Start?)
  }

  lemma {:induction false} PhaseIs(h: seq<Event>)
    ensures PhaseMeans(h, ReplayAll(h).phase)
  {
    hide PhaseMeans;
    if h == [] {
      NoPhase();
    } else {
      var p, e := h[..|h| - 1], h[|h| - 1];
      PhaseIs(p);
      assert h == p + [e];
      PhaseStep(p, e, ReplayAll(p));
    }
  }

  lemma NoPhase()
    ensures PhaseMeans([], Fresh)
  {
  }

  lemma PhaseStep(p: seq<Event>, e: Event, r: Replay)
    requires PhaseMeans(p, r.phase)
    ensures PhaseMeans(p + [e], After(r, e).phase)
  {
    hide HasStopped, Runs;
    StoppedStep(p, e);
    RunsStep(p, e);
    assert (forall i :: 0 <= i < |p + [e]| ==> !(p + [e])[i].Start?) <==> (forall i :: 0 <= i < |p| ==> !p[i].Start?) && !e.Start? by {
      if forall i :: 0 <= i < |p + [e]| ==> !(p + [e])[i].Start? {
        forall i | 0 <= i < |p| ensures !p[i].Start? { assert !(p + [e])[i].Start?; }
        assert !(p + [e])[|p|].Start?;
      }
    }
  }

  lemma StoppedStep(p: seq<Event>, e: Event)
    ensures HasStopped(p + [e]) <==> HasStopped(p) || (e.Stop? && exists i :: 0 <= i < |p| && p[i].Start?)
  {
    var h := p + [e];
    if HasStopped(h) {
      var i, j :| 0 <= i < j < |h| && h[i].Start? && h[j].Stop?;
      assert p[i] == h[i];
      if j < |p| { assert p[j] == h[j]; }
    }
    if HasStopped(p) {
      var i, j :| 0 <= i < j < |p| && p[i].Start? && p[j].Stop?;
      assert h[i] == p[i] && h[j] == p[j];
    }
    if e.Stop? && exists i :: 0 <= i < |p| && p[i].Start? {
      var i :| 0 <= i < |p| && p[i].Start?;
      assert h[i] == p[i] && h[|p|] == e;
    }
  }

  lemma RunsStep(p: seq<Event>, e: Event)
    ensures Runs(p + [e]) <==> e.Start? && !HasStopped(p)
  {
    hide HasStopped;
    var h := p + [e];
    StoppedStep(p, e);
    if e.Start? && !HasStopped(p) {
      assert h[|p|].Start?;
    }
    if Runs(h) {
      var i :| 0 <= i < |h| && h[i].Start? && forall j :: i < j < |h| ==> h[j].Start?;
      assert h[|p|] == e;
    }
  }

  /** A call changes nothing about the time before it. */
  lemma {:induction false} InstantsEarlier(p: seq<Event>, e: Event, now: nat)
    requires now <= e.at
    ensures Instants(p + [e], now) == Instants(p, now)
  {
    hide Runs;
    if now > 0 {
      InstantsEarlier(p, e, now - 1);
      assert (p + [e])[..|p + [e]| - 1] == p;
    }
  }

  /** From the last call on the clock runs all the time, or not at all. */
  lemma {:induction false} InstantsLater(h: seq<Event>, from: nat, now: nat)
    requires h != [] && h[|h| - 1].at == from <= now
    ensures Instants(h, now) == Instants(h, from) + if Runs(h) then now - from else 0
    decreases now
  {
    hide Runs;
    if now > from {
      InstantsLater(h, from, now - 1);
    }
  }

  lemma {:induction false} NoInstants(now: nat)
    ensures Instants([], now) == 0
  {
    if now > 0 {
      NoInstants(now - 1);
    }
  }

  lemma ActiveStep(p: seq<Event>, e: Event, now: Time)
    ensures Active(p + [e], now) == Active(p, e.at) + if ReplayAll(p + [e]).phase.Running? then now - e.at else 0
  {
    assert (p + [e])[..|p + [e]| - 1] == p;
  }

  /** The sum of the running intervals is the number of instants at which the clock runs. */
  lemma {:induction false} ActiveIsInstants(h: seq<Event>, now: nat)
    requires Monotone(h, now)
    ensures Active(h, now) == Instants(h, now)
    decreases |h|
  {
    hide Active, Instants, Runs, PhaseMeans, After;
    if h == [] {
      NoInstants(now);
      NoneActive(now);
    } else {
      var p, e := h[..|h| - 1], h[|h| - 1];
      assert h == p + [e];
      ActiveIsInstants(p, e.at);
      InstantsEarlier(p, e, e.at);
      InstantsLater(h, e.at, now);
      ActiveStep(p, e, now);
      PhaseIs(h);
      RunningMeans(h);
    }
  }

  lemma NoneActive(now: Time)
    ensures Active([], now) == 0
  {
  }

  lemma RunningMeans(h: seq<Event>)
    requires PhaseMeans(h, ReplayAll(h).phase)
    ensures ReplayAll(h).phase.Running? <==> Runs(h)
  {
  }


  /** Every pause was resumed: none is open, and none was open when Stop was called. */
  ghost predicate AllResumed(h: seq<Event>) {
    && !ReplayAll(h).phase.Paused?
    && forall n :: 0 <= n <= |h| ==> !ReplayAll(h[..n]).phase.StoppedPaused?
  }

  lemma {:induction false} ResumedIsExact(h: seq<Event>, now: Time)
    requires Monotone(h, now)
    requires forall n :: 0 <= n <= |h| ==> !ReplayAll(h[..n]).phase.StoppedPaused?
    ensures Late(h) == 0
  {
    if h != [] {
      var p := h[..|h| - 1];
      forall n | 0 <= n <= |p| ensures !ReplayAll(p[..n]).phase.StoppedPaused? {
        assert p[..n] == h[..n];
      }
      ResumedIsExact(p, now);
      assert p[..|p|] == p == h[..|h| - 1];
      assert !ReplayAll(h[..|h| - 1]).phase.StoppedPaused?;
    }
  }
}

/** Transfer statistics: byte counter, pause-aware clock and live bandwidth (internal/stats). */
module Statistics {
  import opened Bytes
  import opened BandwidthRing
  import opened ActiveTime

  /** The sample CurrentBandwidth measures from: the start while it is recent, else a ring sample. */
  function Reference(start: Time, now: Time, pushed: seq<Sample>): Option<Sample> {
    if start >= now - WINDOW then Some(Sample(start, 0))
    else FirstFrom(pushed, Oldest(|pushed|), now - WINDOW)
  }

  /** Bytes per second over an interval in nanoseconds. */
  function PerSecond(count: nat, nanos: nat): real
    requires nanos > 0
  {
    count as real / (nanos as real / 1_000_000_000.0)
  }

  /** At the rate, count bytes take nanos nanoseconds, of which a second has a thousand million. */
  ghost predicate IsRate(rate: real, count: int, nanos: int) {
    rate * nanos as real == count as real * 1_000_000_000.0
  }

  lemma PerSecondIs(count: nat, nanos: nat)
    requires nanos > 0
    ensures IsRate(PerSecond(count, nanos), count, nanos)
  {
    var n := nanos as real / 1_000_000_000.0;
    assert n > 0.0 && count as real / n * n == count as real;
  }

  /** r is the first of the last fifty samples that is not before the cutoff. */
  ghost predicate IsOldestWithin(h: seq<Sample>, cutoff: Time, r: Option<Sample>) {
    if r.None? then forall k :: 0 <= k < |h| && |h| - 50 <= k ==> h[k].t < cutoff
    else exists k :: 0 <= k < |h| && |h| - 50 <= k && h[k] == r.value && h[k].t >= cutoff
           && forall j :: 0 <= j < k && |h| - 50 <= j ==> h[j].t < cutoff
  }

  class Stats {
    var nbBytes: u64
    var timeStart: Time
    var timeStop: Time
    var timePause: Time
    var timePaused: int
    const ring: BwRing
    ghost var history: seq<Event> // every Start, Pause and Stop call
    ghost var clock: Time         // the latest time any call has seen
    ghost var total: nat          // bytes added, without wrap-around

    ghost predicate Valid()
      reads this, ring, ring.samples
    {
      && ring.Valid()
      && nbBytes == total % TWO64
      && 0 < clock && Monotone(history, clock)
      && Tracks(ReplayAll(history))
      && forall i :: 0 <= i < |ring.history| ==>
           ring.history[i].t <= clock && (total < TWO64 ==> ring.history[i].count <= total)
    }

    /** The four time fields represent the replayed history. */
    ghost predicate Tracks(r: Replay)
      reads this
    {
      && (r.phase.Fresh? <==> timeStart == 0)
      && (r.phase.Fresh? ==> timeStop == timePause == timePaused == 0 && r.active == 0)
      && (r.phase.Running? ==> timeStop == timePause == 0 && r.active == r.phase.since - timeStart - timePaused)
      && (r.phase.Paused? ==>
            timeStop == 0 && timePause == r.phase.since != 0
            && r.active == timePause - timeStart - timePaused)
      && (r.phase.Stopped? ==>
            timeStop == r.phase.at != 0 && timePause == 0
            && r.active - r.late == timeStop - timeStart - timePaused)
      && (r.phase.StoppedPaused? ==>
            timeStop == r.phase.at != 0 && timePause == r.phase.since != 0
            && r.active == timePause - timeStart - timePaused)
      && (!r.phase.Stopped? ==> r.late == 0)
      && 0 <= timeStart <= clock
    }

    constructor (now: Time)
      requires now > 0
      ensures Valid() && history == [] && total == 0 && clock == now
      ensures fresh(ring) && fresh(ring.samples) && ring.history == []
    {
      nbBytes := 0;
      timeStart, timeStop, timePause, timePaused := 0, 0, 0, 0;
      ring := new BwRing();
      history, clock, total := [], now, 0;
    }

    /** AddBytes: a 64-bit counter that wraps around. */
    method AddBytes(count: u64)
      requires Valid()
      modifies this`nbBytes, this`total
      ensures Valid() && total == old(total) + count
    {
      nbBytes := (nbBytes + count) % TWO64;
      total := total + count;
    }

    lemma Extended(e: Event)
      requires Valid() && e.at >= clock
      ensures Monotone(history + [e], e.at)
      ensures ReplayAll(history + [e]) == After(ReplayAll(history), e)
    {
      assert (history + [e])[..|history|] == history;
    }

    method Start(now: Time)
      requires Valid() && now >= clock
      modifies this
      ensures Valid() && history == old(history) + [Event.Start(now)] && clock == now
      ensures total == old(total)
      ensures timeStart == if old(timeStart) == 0 then now else old(timeStart)
    {
      hide ReplayAll, Monotone, BwRing.Valid;
      ReplayBounds(history, clock);
      Extended(Event.Start(now));
      history, clock := history + [Event.Start(now)], now;
      if timeStart == 0 {
        timeStart := now;
        return;
      }
      if timePause != 0 {
        timePaused := timePaused + (now - timePause);
        timePause := 0;
      }
    }

    method Pause(now: Time)
      requires Valid() && now >= clock
      modifies this
      ensures Valid() && history == old(history) + [Event.Pause(now)] && clock == now
      ensures total == old(total)
      ensures timeStart == old(timeStart)
    {
      hide ReplayAll, Monotone, BwRing.Valid;
      ReplayBounds(history, clock);
      Extended(Event.Pause(now));
      history, clock := history + [Event.Pause(now)], now;
      if timeStart == 0 || timeStop != 0 {
        return;
      }
      if timePause == 0 {
        timePause := now;
      }
    }

    method Stop(now: Time)
      requires Valid() && now >= clock
      modifies this
      ensures Valid() && history == old(history) + [Event.Stop(now)] && clock == now
      ensures total == old(total)
      ensures timeStart == old(timeStart)
    {
      hide ReplayAll, Monotone, BwRing.Valid;
      ReplayBounds(history, clock);
      Extended(Event.Stop(now));
      history, clock := history + [Event.Stop(now)], now;
      if timeStart == 0 {
        return;
      }
      if timeStop == 0 {
        timeStop := now;
      }
    }

    /** What durationLocked computes from the four fields. */
    function DurationAt(now: Time): int
      reads this
    {
      if timeStart == 0 then 0
      else if timeStop == 0 then now - timeStart - timePaused
      else timeStop - timeStart - timePaused
    }

    /**
     * Duration for every history of calls: the running intervals, plus a pause nobody resumed,
     * minus the time by which a pause open at the stop was resumed too late.
     */
    lemma DurationExact(now: Time)
      requires Valid() && now >= clock
      ensures DurationAt(now) == Active(history, now) + OpenPause(history, now) - Late(history)
    {
    }

    /** Duration is the sum of the running intervals exactly when those two corrections vanish. */
    lemma DurationIsActiveTime(now: Time)
      requires Valid() && now >= clock
      ensures DurationAt(now) == Active(history, now) <==> OpenPause(history, now) == 0 && Late(history) == 0
    {
      ReplayBounds(history, clock);
    }

    /** With every pause resumed: exactly the running intervals, never negative, constant once stopped. */
    lemma DurationWhenResumed(now: Time, later: Time)
      requires Valid() && clock <= now <= later && AllResumed(history)
      ensures DurationAt(now) == Active(history, now) >= 0
      ensures DurationAt(later) >= DurationAt(now)
      ensures ReplayAll(history).phase.Stopped? ==> DurationAt(later) == DurationAt(now)
    {
      ReplayBounds(history, clock);
      ResumedIsExact(history, clock);
      assert history[..|history|] == history;
    }

    /** Sample: the running total at this moment goes into the ring. */
    method Sample(now: Time)
      requires Valid() && now >= clock
      modifies this`clock, ring, ring.samples
      ensures Valid() && clock == now && ring.samples == old(ring.samples)
      ensures ring.history == old(ring.history) + [BandwidthRing.Sample(now, nbBytes)]
    {
      clock := now;
      ring.Push(BandwidthRing.Sample(now, nbBytes));
    }

    /** The reference of a measurement at now: none before Start or without a recent sample. */
    ghost function Since(now: Time): Option<BandwidthRing.Sample>
      reads this, ring
    {
      if timeStart == 0 then None else Reference(timeStart, now, ring.history)
    }

    /**
     * CurrentBandwidth in bytes per second over the reference sample: the interval is positive
     * and at most five seconds, and the 64-bit subtraction of byte counts does not underflow.
     */
    method CurrentBandwidth(now: Time) returns (rate: real)
      requires Valid() && now >= clock && total < TWO64
      ensures Since(now).Some? ==> 0 <= now - Since(now).value.t <= WINDOW && Since(now).value.count <= total
      ensures Since(now).None? || Since(now).value.t >= now ==> rate == 0.0
      ensures Since(now).Some? && Since(now).value.t < now ==>
                IsRate(rate, total - Since(now).value.count, now - Since(now).value.t)
    {
      hide Monotone, ReplayAll, Tracks, PerSecond, IsRate;
      if timeStart == 0 {
        return 0.0;
      }
      var cutoff := now - WINDOW;
      var refTime, refBytes := 0, 0;
      FirstFromMeans(ring.history, Oldest(|ring.history|), cutoff);
      if timeStart >= cutoff {
        refTime, refBytes := timeStart, 0;
        StartSeen(now);
      } else {
        var oldest := ring.OldestWithin(cutoff);
        if oldest.None? {
          return 0.0;
        }
        refTime, refBytes := oldest.value.t, oldest.value.count;
      }
      var dt := now - refTime;
      if dt <= 0 {
        return 0.0;
      }
      var moved := (nbBytes - refBytes) % TWO64;
      assert Since(now) == Some(BandwidthRing.Sample(refTime, refBytes)) && moved == total - refBytes;
      rate := PerSecond(moved, dt);
      PerSecondIs(moved, dt);
    }

    /**
     * The reference at now: the start as long as it is at most five seconds old, else the first of the
     * last fifty samples that is; none before Start or without such a sample.
     */
    lemma SinceMeans(now: Time)
      requires Valid()
      ensures timeStart == 0 ==> Since(now).None?
      ensures timeStart != 0 && timeStart >= now - 5_000_000_000 ==> Since(now) == Some(BandwidthRing.Sample(timeStart, 0))
      ensures timeStart != 0 && timeStart < now - 5_000_000_000 ==> IsOldestWithin(ring.history, now - 5_000_000_000, Since(now))
    {
      FirstFromMeans(ring.history, Oldest(|ring.history|), now - 5_000_000_000);
    }

    /** The start lies in the past. */
    lemma StartSeen(now: Time)
      requires Valid() && now >= clock && timeStart != 0
      ensures timeStart <= now
    {
      ReplayBounds(history, clock);
    }
  }

  /** A million bytes in the first second read as a million bytes per second. */
  method MillionInASecond() returns (rate: real)
    ensures rate == 1_000_000.0
  {
    hide ReplayAll, Monotone, IsRate, FirstFrom;
    var s := new Stats(1);
    s.Start(1);
    s.AddBytes(1_000_000);
    s.SinceMeans(1_000_000_001);
    rate := s.CurrentBandwidth(1_000_000_001);
    MillionRate(rate);
  }

  lemma MillionRate(rate: real)
    requires IsRate(rate, 1_000_000, 1_000_000_000)
    ensures rate == 1_000_000.0
  {
  }

  /** A pause that is still open counts as active time: the running intervals are 1, Duration says 6. */
  method OpenPauseIsCounted() returns (d: int, ghost h: seq<Event>)
    ensures d == 6 && Active(h, 7) == 1
  {
    var s := new Stats(1);
    s.Start(1);
    s.Pause(2);
    d, h := s.DurationAt(7), s.history;
    assert h == [Event.Start(1)] + [Event.Pause(2)];
    assert h[..1] == [Event.Start(1)] && h[..1][..0] == [];
    assert ReplayAll(h[..1]) == Replay(Running(1), 0, 0);
  }

  /** Resuming after Stop a pause that was open at the stop makes Duration negative. */
  method LateResumeGoesNegative() returns (d: int, ghost h: seq<Event>)
    ensures d < 0 && Active(h, 10) == 1
  {
    var s := new Stats(1);
    s.Start(1);
    s.Pause(2);
    s.Stop(3);
    s.Start(10);
    d, h := s.DurationAt(10), s.history;
    assert h == [Event.Start(1), Event.Pause(2), Event.Stop(3), Event.Start(10)];
    assert h[..3] == [Event.Start(1), Event.Pause(2), Event.Stop(3)];
    assert h[..3][..2] == [Event.Start(1), Event.Pause(2)];
    assert h[..3][..2][..1] == [Event.Start(1)];
    assert ReplayAll([Event.Start(1)]) == Replay(Running(1), 0, 0);
    assert ReplayAll(h[..3][..2]) == Replay(Paused(2), 1, 0);
    assert ReplayAll(h[..3]) == Replay(StoppedPaused(2, 3), 1, 0);
    s.DurationExact(10);
  }
}
