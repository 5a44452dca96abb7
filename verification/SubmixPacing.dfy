// The pacing of in_read in audio_hw.cpp: how long a read sleeps so that recording does not
// run ahead of the sample rate, with the truncating divisions the code makes.
module SubmixPacing {
  import opened Basics

  const SECOND: nat := 1_000_000_000

  // A clock reading as the timespec the code works with.
  datatype Time = Time(sec: int, nsec: int)

  function Clock(ns: nat): Time { Time(ns / SECOND, ns % SECOND) }

  // The observed duration, borrowing a second when the nanoseconds went negative.
  function Duration(start: Time, now: Time): Time {
    var sec, nsec := now.sec - start.sec, now.nsec - start.nsec;
    if nsec < 0 then Time(sec - 1, nsec + SECOND) else Time(sec, nsec)
  }

  lemma DurationIsExact(start: nat, now: nat)
    requires start <= now
    ensures var d := Duration(Clock(start), Clock(now));
      && d.sec * SECOND + d.nsec == now - start && 0 <= d.nsec < SECOND && d.sec >= 0
  {
  }

  // Microseconds still to wait, as the code computes them.
  function WaitUs(frames: nat, rate: nat, d: Time): int
    requires rate > 0
  {
    TruncDiv((frames - d.sec * rate) * 1_000_000, rate) - d.nsec / 1000
  }

  // Recorded time ahead of elapsed time, in units of a nanosecond divided by the rate.
  function Ahead(frames: nat, rate: nat, elapsed: int): int {
    frames * SECOND - elapsed * rate
  }

  lemma TruncDivBound(n: int, d: int)
    requires d > 0
    ensures n < (TruncDiv(n, d) + 1) * d
  {
    if n >= 0 {
      assert n == (n / d) * d + n % d;
    } else {
      assert -n == ((-n) / d) * d + (-n) % d;
      assert (-((-n) / d) + 1) * d == -(((-n) / d) * d) + d;
    }
  }

  // Sleeping at least as long as computed leaves the recording ahead by less than a
  // microsecond, whatever the truncations and the borrow did.
  lemma WaitKeepsPace(frames: nat, rate: nat, elapsed: nat, slept: nat)
    requires rate > 0
    requires var d := Time(elapsed / SECOND, elapsed % SECOND);
      WaitUs(frames, rate, d) > 0 ==> slept >= WaitUs(frames, rate, d) * 1000
    ensures Ahead(frames, rate, elapsed + slept) < 1000 * rate
  {
    hide TruncDiv;
    var sec, nsec := elapsed / SECOND, elapsed % SECOND;
    var x := (frames - sec * rate) * 1_000_000;
    var q := TruncDiv(x, rate);
    TruncDivBound(x, rate);
    Waited(q, rate, x, nsec + slept);
    Distributed(sec * SECOND, nsec + slept, rate);
    assert sec * SECOND * rate == sec * rate * SECOND;
  }

  // Having waited q microseconds covers x / rate microseconds up to less than one.
  lemma Waited(q: int, rate: nat, x: int, y: int)
    requires x < (q + 1) * rate && y >= 1000 * q
    ensures 1000 * x - y * rate < 1000 * rate
  {
    Monotone(y, 1000 * q, rate);
    Distributed(q, 1, rate);
    assert 1000 * q * rate == 1000 * (q * rate);
  }

  lemma Distributed(a: int, b: int, c: int)
    ensures (a + b) * c == a * c + b * c
  {
  }

  lemma Monotone(a: int, b: int, c: nat)
    requires a >= b
    ensures a * c >= b * c
  {
  }

  // ---------------------------------------------------------------- one stream

  // The pacing part of an input stream, and the wall clock in nanoseconds. rough counts the
  // reads without a pipe since the last paced one.
  datatype State = State(
    rate: nat,
    standby: bool,
    outStandby: bool,
    start: nat,
    frames: nat,
    now: nat,
    rough: nat)

  predicate Sane(s: State) { s.rate > 0 && s.start <= s.now }

  // A stream just opened; the output it may find there is in standby or not.
  function Opened(rate: nat, outStandby: bool, now: nat): State {
    State(rate, true, outStandby, 0, 0, now, 0)
  }

  // One call: the frames asked for, whether the output is in standby and a pipe exists, how
  // long the call takes before it computes its wait, and how long it sleeps in the end.
  datatype Read = Read(frames: nat, outStandby: bool, hasPipe: bool, busy: nat, slept: nat)

  // Leaving standby, or a change of the output's standby state, restarts the recording.
  function Restarted(s: State, outStandby: bool): State {
    if s.standby || s.outStandby != outStandby then
      s.(standby := false, outStandby := outStandby, start := s.now, frames := 0, rough := 0)
    else s
  }

  // Nanoseconds the call asks usleep for; nothing when the wait is not positive.
  function Asked(s: State, r: Read): nat
    requires Sane(s)
  {
    if !r.hasPipe then (r.frames * 1_000_000 / s.rate) * 1000
    else
      var wait := WaitUs(s.frames, s.rate, Duration(Clock(s.start), Clock(s.now)));
      if wait > 0 then wait * 1000 else 0
  }

  // The state when the call computes its wait.
  function Measured(s: State, r: Read): (m: State)
    requires Sane(s)
    ensures Sane(m)
  {
    var s1 := Restarted(s, r.outStandby);
    s1.(frames := s1.frames + r.frames, now := s1.now + r.busy)
  }

  function Returned(s: State, r: Read): (m: State)
    requires Sane(s)
    ensures Sane(m)
  {
    var m := Measured(s, r);
    m.(now := m.now + r.slept, rough := if r.hasPipe then 0 else m.rough + 1)
  }

  // What the opening of a stream that is open already does to it: the time the recording
  // started stays behind.
  function Reopened(s: State, rate: nat, outStandby: bool): State {
    s.(rate := rate, standby := true, outStandby := outStandby, frames := 0, rough := 0)
  }

  class InStream {
    var rate: nat
    var inputStandby: bool
    var outputStandbyRecThr: bool
    var recordStart: nat
    var readCounterFrames: nat
    ghost var now: nat
    ghost var rough: nat

    ghost predicate Valid()
      reads this
    {
      Sane(Here())
    }

    ghost function Here(): State
      reads this
    {
      State(rate, inputStandby, outputStandbyRecThr, recordStart, readCounterFrames, now, rough)
    }

    constructor (rate: nat, outStandby: bool, ghost clock: nat)
      requires rate > 0
      ensures Valid() && Here() == Opened(rate, outStandby, clock)
    {
      this.rate := rate;
      inputStandby, outputStandbyRecThr := true, outStandby;
      recordStart, readCounterFrames, now, rough := 0, 0, clock, 0;
    }

    // in_standby
    method Standby()
      requires Valid()
      modifies this`inputStandby
      ensures Valid() && Here() == old(Here()).(standby := true)
    {
      inputStandby := true;
    }

    // adev_open_input_stream on a stream that is open
    method Reopen(newRate: nat, outStandby: bool)
      requires Valid() && newRate > 0
      modifies this
      ensures Valid() && Here() == Reopened(old(Here()), newRate, outStandby)
    {
      readCounterFrames := 0;
      inputStandby := true;
      outputStandbyRecThr := outStandby;
      rate := newRate;
      rough := 0;
    }

    // The clock readings are what clock_gettime returns at the two places that call it; any
    // time may have passed since the last call. The result is the number of nanoseconds asked
    // of usleep.
    method InRead(r: Read, clockAtEntry: nat, clockAfterRead: nat) returns (asked: nat)
      requires Valid() && clockAtEntry >= now && clockAfterRead == clockAtEntry + r.busy
      modifies this
      ensures Valid() && Here() == Returned(old(Here()).(now := clockAtEntry), r)
      ensures asked == Asked(Measured(old(Here()).(now := clockAtEntry), r), r)
    {
      hide WaitUs;
      if inputStandby || outputStandbyRecThr != r.outStandby {
        inputStandby := false;
        recordStart := clockAtEntry;
        readCounterFrames := 0;
        rough := 0;
      }
      outputStandbyRecThr := r.outStandby;
      readCounterFrames := readCounterFrames + r.frames;
      now := clockAtEntry + r.busy;
      if !r.hasPipe {
        asked := (r.frames * 1_000_000 / rate) * 1000;
        now := now + r.slept;
        rough := rough + 1;
        return;
      }
      var d := Duration(Clock(recordStart), Clock(clockAfterRead));
      var wait := WaitUs(readCounterFrames, rate, d);
      asked := if wait > 0 then wait * 1000 else 0;
      now := now + r.slept;
      rough := 0;
    }
  }

  // ---------------------------------------------------------------- every run

  // The recording is less than a microsecond ahead, and less than one more for each read
  // without a pipe since then.
  ghost predicate InPace(s: State) {
    Sane(s) && Ahead(s.frames, s.rate, s.now - s.start) < 1000 * s.rate * (s.rough + 1)
  }

  lemma PacedReadInPace(s: State, r: Read)
    requires Sane(s) && r.hasPipe
    requires r.slept >= Asked(Measured(s, r), r)
    ensures InPace(Returned(s, r))
  {
    hide WaitUs, Ahead;
    var m := Measured(s, r);
    var elapsed := m.now - m.start;
    DurationIsExact(m.start, m.now);
    SplitIs(elapsed, Duration(Clock(m.start), Clock(m.now)));
    WaitKeepsPace(m.frames, m.rate, elapsed, r.slept);
  }

  lemma SplitIs(elapsed: nat, d: Time)
    requires d.sec * SECOND + d.nsec == elapsed && 0 <= d.nsec < SECOND && d.sec >= 0
    ensures d == Time(elapsed / SECOND, elapsed % SECOND)
  {
  }

  lemma RoughReadInPace(s: State, r: Read)
    requires InPace(s) && !r.hasPipe
    requires r.slept >= Asked(Measured(s, r), r)
    ensures InPace(Returned(s, r))
  {
    var s1, rate := Restarted(s, r.outStandby), s.rate;
    var q := r.frames * 1_000_000 / rate;
    assert r.frames * 1_000_000 < q * rate + rate by {
      assert r.frames * 1_000_000 == q * rate + r.frames * 1_000_000 % rate;
    }
    RestartInPace(s, r.outStandby);
    assert r.busy + r.slept >= q * 1000;
    hide Restarted, Asked;
    RoughStep(s1.frames, r.frames, rate, s1.now - s1.start, r.busy + r.slept, s1.rough, q);
  }

  // Slept for q microseconds or longer, for frames that take less than one more.
  lemma RoughStep(f: nat, n: nat, rate: nat, before: int, delta: nat, rough: nat, q: nat)
    requires Ahead(f, rate, before) < 1000 * rate * (rough + 1)
    requires n * 1_000_000 < q * rate + rate && delta >= q * 1000
    ensures Ahead(f + n, rate, before + delta) < 1000 * rate * (rough + 1 + 1)
  {
    Monotone(delta, q * 1000, rate);
    assert (q * 1000) * rate == 1000 * (q * rate);
    Distributed(before, delta, rate);
    assert 1000 * rate * (rough + 2) == 1000 * rate * (rough + 1) + 1000 * rate;
  }

  lemma RestartInPace(s: State, outStandby: bool)
    requires InPace(s)
    ensures InPace(Restarted(s, outStandby))
  {
  }

  // Between reads time passes, the stream is put into standby, or it is opened once more,
  // perhaps at another rate.
  datatype Event =
    | ReadNow(r: Read)
    | Idle(gap: nat)
    | Standby
    | Reopen(rate: nat, outStandby: bool)

  function Next(s: State, e: Event): (m: State)
    requires Sane(s)
    ensures (e.Reopen? ==> e.rate > 0) ==> Sane(m)
  {
    match e
    case ReadNow(r) => Returned(s, r)
    case Idle(gap) => s.(now := s.now + gap)
    case Standby => s.(standby := true)
    case Reopen(rate, outStandby) => Reopened(s, rate, outStandby)
  }

  // A read does not sleep shorter than it asks for.
  ghost predicate Allowed(s: State, e: Event) {
    Sane(s) &&
    match e
    case ReadNow(r) => r.slept >= Asked(Measured(s, r), r)
    case Reopen(rate, _) => rate > 0
    case _ => true
  }

  ghost predicate IsStep(s: State, e: Event, m: State) {
    Allowed(s, e) && m == Next(s, e)
  }

  ghost predicate IsRun(states: seq<State>, events: seq<Event>) {
    && |states| == |events| + 1
    && (exists rate: nat, outStandby, now: nat :: rate > 0 && states[0] == Opened(rate, outStandby, now))
    && forall i | 0 <= i < |events| :: IsStep(states[i], events[i], states[i + 1])
  }

  // Time that passes brings the recording back, never ahead.
  lemma NextInPace(s: State, e: Event)
    requires InPace(s) && Allowed(s, e)
    ensures InPace(Next(s, e))
  {
    match e {
      case ReadNow(r) =>
        hide InPace, Asked, Measured, Returned;
        if r.hasPipe {
          PacedReadInPace(s, r);
        } else {
          RoughReadInPace(s, r);
        }
      case Idle(gap) => Monotone(s.now + gap - s.start, s.now - s.start, s.rate);
      case Standby =>
      case Reopen(rate, _) => Monotone(s.now - s.start, 0, rate);
    }
  }

  // Standby and a re-open have the next read start the recording anew, whenever it comes.
  lemma NextReadStartsAnew(s: State, e: Event, gap: nat, r: Read)
    requires Sane(s) && Allowed(s, e) && (e.Standby? || e.Reopen?)
    ensures var s1 := Next(Next(s, e), Idle(gap)); var m := Measured(s1, r);
      && m.start == s.now + gap && m.frames == r.frames && m.rough == 0
      && m.rate == (if e.Reopen? then e.rate else s.rate) && !m.standby && m.outStandby == r.outStandby
  {
  }

  // A read that follows another goes on with its recording exactly if the output's standby
  // state is the same.
  lemma RecordingGoesOnIff(s: State, first: Read, gap: nat, r: Read)
    requires Sane(s) && first.frames > 0
    ensures var s1 := Returned(s, first); var m := Measured(Next(s1, Idle(gap)), r);
      m.frames == s1.frames + r.frames && m.start == s1.start <==> r.outStandby == first.outStandby
  {
  }

  // The first read of a stream starts its recording.
  lemma FirstReadStartsRecording(rate: nat, outStandby: bool, now: nat, r: Read)
    requires rate > 0
    ensures var m := Measured(Opened(rate, outStandby, now), r); m.start == now && m.frames == r.frames
  {
  }

  // Without a pipe a read asks for the time of its frames, less than a microsecond short of it; with
  // one it asks for nothing if the recording is not ahead.
  lemma RoughSleepIsRight(s: State, r: Read)
    requires Sane(s) && !r.hasPipe
    ensures 0 <= r.frames * SECOND - Asked(s, r) * s.rate < 1000 * s.rate
  {
    var q := r.frames * 1_000_000 / s.rate;
    assert r.frames * 1_000_000 == q * s.rate + r.frames * 1_000_000 % s.rate;
    assert q * 1000 * s.rate == 1000 * (q * s.rate);
  }

  lemma LateReadIsNotHeldUp(s: State, r: Read)
    requires Sane(s) && r.hasPipe && Ahead(s.frames, s.rate, s.now - s.start) <= -1000 * s.rate
    ensures Asked(s, r) == 0
  {
    hide WaitUs, Ahead;
    var elapsed := s.now - s.start;
    DurationIsExact(s.start, s.now);
    SplitIs(elapsed, Duration(Clock(s.start), Clock(s.now)));
    var wait := WaitUs(s.frames, s.rate, Duration(Clock(s.start), Clock(s.now)));
    if wait > 0 {
      WaitIsNotLong(s.frames, s.rate, elapsed);
      LaterIsLess(s.frames, s.rate, elapsed, wait * 1000);
    }
  }

  lemma LaterIsLess(frames: nat, rate: nat, elapsed: nat, more: nat)
    ensures Ahead(frames, rate, elapsed + more) <= Ahead(frames, rate, elapsed)
  {
    Monotone(elapsed + more, elapsed, rate);
  }

  // In every state of every run the recording is in pace: however reads, pauses, standby and
  // re-opens follow each other, the error does not add up over paced reads.
  lemma {:induction false} PacingDoesNotDrift(states: seq<State>, events: seq<Event>, i: nat)
    requires IsRun(states, events) && i < |states|
    ensures InPace(states[i])
  {
    hide InPace, Next, Allowed;
    if i == 0 {
      OpenedInPace(states[0]);
    } else {
      PacingDoesNotDrift(states, events, i - 1);
      assert IsStep(states[i - 1], events[i - 1], states[i - 1 + 1]);
      NextInPace(states[i - 1], events[i - 1]);
    }
  }

  lemma OpenedInPace(s: State)
    requires s.rate > 0 && s.start == s.frames == s.rough == 0
    ensures InPace(s)
  {
    Monotone(s.now, 0, s.rate);
  }

  // A read that has to wait and sleeps exactly as long as it asks is not a microsecond late
  // either.
  lemma ExactSleepIsNotLate(s: State, r: Read)
    requires Sane(s) && r.hasPipe && r.slept == Asked(Measured(s, r), r) > 0
    ensures var m := Returned(s, r); Ahead(m.frames, m.rate, m.now - m.start) > -1000 * m.rate
  {
    hide WaitUs, Ahead;
    var m := Measured(s, r);
    var elapsed := m.now - m.start;
    DurationIsExact(m.start, m.now);
    SplitIs(elapsed, Duration(Clock(m.start), Clock(m.now)));
    WaitIsNotLong(m.frames, m.rate, elapsed);
  }

  lemma WaitIsNotLong(frames: nat, rate: nat, elapsed: nat)
    requires rate > 0 && WaitUs(frames, rate, Time(elapsed / SECOND, elapsed % SECOND)) > 0
    ensures var wait := WaitUs(frames, rate, Time(elapsed / SECOND, elapsed % SECOND));
      Ahead(frames, rate, elapsed + wait * 1000) > -1000 * rate
  {
    var sec, nsec := elapsed / SECOND, elapsed % SECOND;
    var x := (frames - sec * rate) * 1_000_000;
    var q := TruncDiv(x, rate);
    assert x >= q * rate by {
      assert x == (x / rate) * rate + x % rate;
    }
    hide TruncDiv;
    var y := 1000 * q + nsec % 1000;
    NotWaited(q, rate, x, y);
    Distributed(sec * SECOND, y, rate);
    assert sec * SECOND * rate == sec * rate * SECOND;
    assert nsec + (q - nsec / 1000) * 1000 == y;
  }

  lemma NotWaited(q: int, rate: nat, x: int, y: int)
    requires x >= q * rate && rate > 0 && y < 1000 * q + 1000
    ensures 1000 * x - y * rate > -1000 * rate
  {
    Monotone(1000 * q + 999, y, rate);
    Distributed(1000 * q, 999, rate);
    assert 1000 * q * rate == 1000 * (q * rate);
  }
}
