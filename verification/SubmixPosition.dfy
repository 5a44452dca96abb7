// Position accounting of the remote submix output in audio_hw.cpp: out_write pushes frames
// into a bounded pipe and counts them in a separate step, a reader and the flush take frames
// out at any moment, and the presentation position is computed from both counters.
module SubmixPosition {
  import opened Basics

  type Frame = int

  // Where the writer is: between calls, with frames pushed but not counted yet, or sleeping
  // over a buffer that a shut-down pipe drops.
  datatype Phase = Idle | Pushing(frames: nat, pushed: nat) | Dropping(frames: nat)

  // queue is the pipe; sent, left and dropped record what happened to frames.
  datatype State = State(
    capacity: nat,
    queue: seq<Frame>,
    shutdown: bool,
    hasInput: bool,
    phase: Phase,
    framesWritten: nat,
    sent: seq<Frame>,
    left: seq<Frame>,
    dropped: nat)

  // The output stream has just been opened and its pipe created; nobody reads yet.
  function Opened(capacity: nat): State {
    State(capacity, [], false, false, Idle, 0, [], [], 0)
  }

  datatype Step =
    | BeginWrite(frames: nat)   // the first locked part of out_write
    | Flush(n: nat)             // one read of the flush loop
    | Push(chunk: seq<Frame>)   // some frames enter the pipe, without the lock
    | EndWrite                  // the last locked part: count what was pushed
    | EndDrop                   // the lost buffer is counted as written
    | Read(n: nat)              // in_read takes frames out, without the lock
    | OpenInput
    | CloseInput

  predicate Enabled(s: State, step: Step) {
    match step
    case BeginWrite(_) => s.phase.Idle?
    case Flush(n) => s.phase.Pushing? && s.phase.pushed == 0 && !s.hasInput
    case Push(chunk) =>
      s.phase.Pushing? && s.phase.pushed + |chunk| <= s.phase.frames && |s.queue| + |chunk| <= s.capacity
    case EndWrite => s.phase.Pushing?
    case EndDrop => s.phase.Dropping?
    case Read(_) => true
    case OpenInput => !s.hasInput
    case CloseInput => s.hasInput
  }

  // A read takes what is there, up to the amount asked for.
  function TakeOut(s: State, n: nat): State {
    var k := Min(n, |s.queue|);
    s.(queue := s.queue[k..], left := s.left + s.queue[..k])
  }

  function Next(s: State, step: Step): State
    requires Enabled(s, step)
  {
    match step
    case BeginWrite(frames) => s.(phase := if s.shutdown then Dropping(frames) else Pushing(frames, 0))
    case Flush(n) => TakeOut(s, n)
    case Push(chunk) =>
      s.(queue := s.queue + chunk, sent := s.sent + chunk,
         phase := Pushing(s.phase.frames, s.phase.pushed + |chunk|))
    case EndWrite => s.(phase := Idle, framesWritten := s.framesWritten + s.phase.pushed)
    case EndDrop =>
      s.(phase := Idle, framesWritten := s.framesWritten + s.phase.frames, dropped := s.dropped + s.phase.frames)
    case Read(n) => TakeOut(s, n)
    case OpenInput => s.(hasInput := true, shutdown := false)
    case CloseInput => s.(hasInput := false, shutdown := true)
  }

  // Frames pushed by the call in progress that its counter update will add.
  function InFlight(s: State): nat {
    if s.phase.Pushing? then s.phase.pushed else 0
  }

  // out_get_presentation_position; None is -EWOULDBLOCK.
  function Position(s: State): Option<nat> {
    if s.framesWritten >= |s.queue| then Some(s.framesWritten - |s.queue|) else None
  }

  // Every frame that entered the pipe has left it or is still in it, in order, and the counter
  // lags behind by exactly what is in flight.
  ghost predicate Inv(s: State) {
    && s.sent == s.left + s.queue && |s.queue| <= s.capacity
    && s.framesWritten + InFlight(s) == |s.sent| + s.dropped
  }

  lemma NextKeepsInv(s: State, step: Step)
    requires Inv(s) && Enabled(s, step)
    ensures Inv(Next(s, step))
  {
    if step.Flush? || step.Read? {
      var k := Min(step.n, |s.queue|);
      assert s.queue == s.queue[..k] + s.queue[k..];
      assert s.left + s.queue[..k] + s.queue[k..] == s.left + s.queue;
    } else if step.Push? {
      assert s.left + (s.queue + step.chunk) == s.left + s.queue + step.chunk;
    }
  }

  ghost predicate IsRun(states: seq<State>, steps: seq<Step>) {
    && |states| == |steps| + 1 && states[0] == Opened(states[0].capacity)
    && forall i | 0 <= i < |steps| :: Enabled(states[i], steps[i]) && states[i + 1] == Next(states[i], steps[i])
  }

  // In every interleaving of writer, reader and flush the reported position never exceeds
  // the frames that left the pipe plus those dropped while it was shut down, and equals that
  // sum exactly when no write is in flight.
  lemma {:induction false} PositionNeverRunsAhead(states: seq<State>, steps: seq<Step>, i: nat)
    requires IsRun(states, steps) && i < |states|
    ensures Inv(states[i])
    ensures var s := states[i]; var gone := |s.left| + s.dropped;
      && (Position(s).Some? <==> InFlight(s) <= gone)
      && (Position(s).Some? ==> Position(s).value + InFlight(s) == gone)
    decreases i
  {
    hide Next, Enabled;
    if i > 0 {
      PositionNeverRunsAhead(states, steps, i - 1);
      NextKeepsInv(states[i - 1], steps[i - 1]);
      assert states[i - 1 + 1] == Next(states[i - 1], steps[i - 1]);
    }
    assert |states[i].sent| == |states[i].left| + |states[i].queue|;
  }

  // While the pipe is shut down, and until an input is opened again, a writer that was between
  // calls sends nothing: whatever it writes is counted as written and as dropped.
  lemma {:induction false} ShutDownDrops(states: seq<State>, steps: seq<Step>, i: nat, j: nat)
    requires i <= j < |states| && |states| == |steps| + 1 && states[i].shutdown && states[i].phase.Idle?
    requires forall k | i <= k < j ::
      Enabled(states[k], steps[k]) && states[k + 1] == Next(states[k], steps[k]) && !steps[k].OpenInput?
    ensures states[j].shutdown && !states[j].phase.Pushing? && states[j].sent == states[i].sent
    ensures states[j].framesWritten - states[i].framesWritten == states[j].dropped - states[i].dropped
  {
    if i < j {
      ShutDownDrops(states, steps, i, j - 1);
      assert states[j - 1 + 1] == Next(states[j - 1], steps[j - 1]);
    }
  }

  // A call that finds the pipe shut down drops all of its frames, one that finds it open none.
  lemma WriteDropsIff(s: State, frames: nat)
    requires s.phase.Idle?
    ensures var t := Next(s, BeginWrite(frames));
      && (s.shutdown ==> Enabled(t, EndDrop) && !Enabled(t, EndWrite))
      && (s.shutdown ==>
            Next(t, EndDrop) == s.(framesWritten := s.framesWritten + frames, dropped := s.dropped + frames))
      && (!s.shutdown ==> Enabled(t, EndWrite) && !Enabled(t, EndDrop) && Next(t, EndWrite).dropped == s.dropped)
  {
  }

  // Closing the input shuts the pipe down, opening one ends that.
  lemma ShutDownFollowsInput(s: State)
    ensures s.hasInput ==> Next(s, CloseInput).shutdown && !Next(s, CloseInput).hasInput
    ensures !s.hasInput ==> !Next(s, OpenInput).shutdown && Next(s, OpenInput).hasInput
  {
  }

  // What the pipe and the drops have taken off the writer's hands.
  function Gone(s: State): nat { |s.left| + s.dropped }

  lemma NothingComesBack(s: State, step: Step)
    requires Enabled(s, step)
    ensures Gone(s) <= Gone(Next(s, step))
  {
  }

  lemma {:induction false} GoneOnlyGrows(states: seq<State>, steps: seq<Step>, i: nat, j: nat)
    requires IsRun(states, steps) && i <= j < |states|
    ensures Gone(states[i]) <= Gone(states[j])
    decreases j
  {
    hide Enabled;
    if i < j {
      GoneOnlyGrows(states, steps, i, j - 1);
      assert states[j - 1 + 1] == Next(states[j - 1], steps[j - 1]);
      NothingComesBack(states[j - 1], steps[j - 1]);
    }
  }

  // Of two reported positions the later is the smaller one exactly when the frames in flight
  // grew by more than those gone, so never once no write is in flight.
  lemma PositionFallsIff(states: seq<State>, steps: seq<Step>, i: nat, j: nat)
    requires IsRun(states, steps) && i <= j < |states|
    requires Position(states[i]).Some? && Position(states[j]).Some?
    ensures var s, t := states[i], states[j];
      Position(t).value < Position(s).value <==> InFlight(t) - InFlight(s) > Gone(t) - Gone(s)
    ensures InFlight(states[j]) == 0 ==> Position(states[i]).value <= Position(states[j]).value
  {
    hide IsRun, Position, InFlight;
    PositionNeverRunsAhead(states, steps, i);
    PositionNeverRunsAhead(states, steps, j);
    GoneOnlyGrows(states, steps, i, j);
  }

  // A frame that is pushed and not yet counted takes the position back from 1 to 0.
  lemma PositionCanFall() returns (states: seq<State>, steps: seq<Step>)
    ensures IsRun(states, steps) && |states| == 7
    ensures Position(states[4]) == Some(1) && Position(states[6]) == Some(0)
  {
    steps := [BeginWrite(1), Push([7]), EndWrite, Read(1), BeginWrite(1), Push([8])];
    var s0 := Opened(4);
    var s1 := s0.(phase := Pushing(1, 0));
    var s2 := s1.(queue := [7], sent := [7], phase := Pushing(1, 1));
    var s3 := s2.(phase := Idle, framesWritten := 1);
    var s4 := s3.(queue := [], left := [7]);
    var s5 := s4.(phase := Pushing(1, 0));
    var s6 := s5.(queue := [8], sent := [7, 8], phase := Pushing(1, 1));
    states := [s0, s1, s2, s3, s4, s5, s6];
    assert Next(s3, steps[3]) == s4;
  }

  const FLUSH_BYTES: nat := 64

  // The flush loop of out_write under the lock, with nobody reading meanwhile: it takes out
  // exactly the frames that are in the way, so that the write has room without blocking.
  method FlushForWrite(s: State, frames: nat, frameSize: nat) returns (r: State)
    requires Inv(s) && 0 < frameSize <= FLUSH_BYTES
    ensures r == if s.hasInput || s.capacity - |s.queue| >= frames then s
                 else TakeOut(s, frames - (s.capacity - |s.queue|))
    ensures !s.hasInput && frames <= s.capacity ==> r.capacity - |r.queue| >= frames
  {
    hide TakeOut, Inv;
    TakeSize(s, frames);
    r := s;
    var availableToWrite := s.capacity - |s.queue|;
    if !s.hasInput && availableToWrite < frames {
      var chunk := FLUSH_BYTES / frameSize;
      var toFlush := frames - availableToWrite;
      ghost var total := toFlush;
      TakeSize(s, total);
      assert chunk > 0;
      while toFlush > 0
        invariant 0 <= toFlush <= total && r == TakeOut(s, total - toFlush)
      {
        var n := Min(toFlush, chunk);
        TakeTwice(s, total - toFlush, n);
        toFlush := toFlush - n;
        r := TakeOut(r, n);
      }
    }
  }

  lemma TakeSize(s: State, n: nat)
    requires Inv(s)
    ensures |s.queue| <= s.capacity && TakeOut(s, 0) == s
    ensures TakeOut(s, n).capacity == s.capacity
    ensures |TakeOut(s, n).queue| == |s.queue| - Min(n, |s.queue|)
  {
    assert s.queue[0..] == s.queue && s.left + s.queue[..0] == s.left;
  }

  lemma TakeTwice(s: State, a: nat, b: nat)
    ensures TakeOut(TakeOut(s, a), b) == TakeOut(s, a + b)
  {
    var k := Min(a, |s.queue|);
    var rest := s.queue[k..];
    var m := Min(b, |rest|);
    assert s.queue[..k] + rest[..m] == s.queue[..k + m];
    assert s.left + s.queue[..k] + rest[..m] == s.left + (s.queue[..k] + rest[..m]);
  }
}
