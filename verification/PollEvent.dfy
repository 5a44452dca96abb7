// sensors_poll_context_t::pollEvent of SensorContext.cpp: one caller buffer is shared out
// among the drivers that have events pending, pass after pass.
module PollEvent {
  import opened Basics
  import SensorManager

  // A flush-complete event names its sensor in its own field.
  datatype Event = Meta(sensor: int) | Data(sensor: int, payload: int)

  function Shift(e: Event): Event { e.(sensor := e.sensor + SensorManager.ID_OFFSET) }

  function ShiftAll(es: seq<Event>): (r: seq<Event>)
    ensures |r| == |es|
  {
    seq(|es|, i requires 0 <= i < |es| => Shift(es[i]))
  }

  // What the caller of pollEvent sees of an event: the same kind and payload under the public
  // handle, one more than the driver's.
  predicate Public(raw: Event, e: Event) {
    && e.sensor == raw.sensor + 1 && (e.Meta? <==> raw.Meta?)
    && (raw.Data? && e.Data? ==> e.payload == raw.payload)
  }

  // It is the handle under which the sensor is listed.
  lemma PublicHandleIsListed(list: seq<(int, int)>, raw: Event, e: Event, i: int)
    requires Public(raw, e) && SensorManager.FirstFor(list, raw.sensor, i)
    ensures list[i].0 == e.sensor && SensorManager.MinDelayNs(list, raw.sensor) == 1000 * list[i].1
  {
    SensorManager.MinDelayOfFirst(list, raw.sensor);
  }

  lemma ShiftedIsPublic(es: seq<Event>)
    ensures forall k | 0 <= k < |es| :: Public(es[k], ShiftAll(es)[k])
  {
  }

  // What a driver shows when it is visited: whether it has events by then, and what its
  // readEvents gives (None for an error).
  datatype Visit = Visit(pending: bool, read: Option<seq<Event>>)

  // One pass: what was pending when the shares were computed, the visits, and poll's answer.
  datatype Pass = Pass(counted: seq<bool>, visits: seq<Visit>, poll: int)

  function PendingCount(bs: seq<bool>): (n: nat)
    ensures n <= |bs|
  {
    if bs == [] then 0 else PendingCount(bs[..|bs| - 1]) + (if bs[|bs| - 1] then 1 else 0)
  }

  // computeCountForEachFd: events per driver, and how many drivers may be read.
  function Shares(count: nat, pending: nat): (nat, nat) {
    var temp := if pending != 0 then count / pending else count;
    (if temp != 0 then temp else count, if count < pending then 1 else pending)
  }

  // The code aborts on a bad read, and again if the remaining count went negative.
  datatype Taken = Taken(events: seq<Event>) | BadRead | Overrun

  function Visits(vs: seq<Visit>, i: nat, count: nat, average: nat, loop: nat): Taken
    requires i <= |vs|
    decreases |vs| - i
  {
    if count == 0 || loop == 0 || i == |vs| then Taken([])
    else if !vs[i].pending then Visits(vs, i + 1, count, average, loop)
    else if vs[i].read.None? || |vs[i].read.value| > average then BadRead
    else if |vs[i].read.value| > count then Overrun
    else
      var es := vs[i].read.value;
      var rest := Visits(vs, i + 1, count - |es|, average, loop - 1);
      if rest.Taken? then Taken(es + rest.events) else rest
  }

  datatype Answer = Delivered(events: seq<Event>) | PollFailed(error: int) | Aborted(why: Taken)

  function Polled(env: seq<Pass>, p: nat, count: nat, sofar: seq<Event>): Answer
    requires p < |env|
    decreases |env| - p
  {
    var (average, loop) := Shares(count, PendingCount(env[p].counted));
    var taken := Visits(env[p].visits, 0, count, average, loop);
    if !taken.Taken? then Aborted(taken)
    else if env[p].poll < 0 then PollFailed(env[p].poll)
    else
      var total, left := sofar + taken.events, count - |taken.events|;
      if env[p].poll != 0 && left > 0 && p + 1 < |env| then Polled(env, p + 1, left, total)
      else Delivered(total)
  }

  // ---------------------------------------------------------------- the promises

  lemma SharesFit(count: nat, pending: nat)
    requires count > 0
    ensures var (average, loop) := Shares(count, pending);
      average >= 1 && average * loop <= count
  {
    if 0 < pending <= count {
      assert count == (count / pending) * pending + count % pending;
    }
  }

  // The shares are as large as the count allows: all that are pending get the same, or, if they
  // are too many, one gets everything; if none is pending nobody is read.
  lemma SharesAreLargest(count: nat, pending: nat)
    requires count > 0
    ensures var (average, loop) := Shares(count, pending);
      && (0 < pending <= count ==> loop == pending && average * pending <= count < (average + 1) * pending)
      && (pending > count ==> loop == 1 && average == count)
      && (pending == 0 ==> loop == 0)
  {
    if 0 < pending <= count {
      assert count == (count / pending) * pending + count % pending;
    }
  }

  lemma {:induction false} CountIsSize(bs: seq<bool>)
    ensures PendingCount(bs) == |set i | 0 <= i < |bs| && bs[i]|
  {
    if bs != [] {
      var n := |bs| - 1;
      CountIsSize(bs[..n]);
      var front := set i | 0 <= i < n && bs[..n][i];
      assert (set i | 0 <= i < |bs| && bs[i]) == if bs[n] then front + {n} else front;
    }
  }

  // The reads of the drivers that are pending when they are visited, from i on.
  function PendingReads(vs: seq<Visit>, i: nat): seq<seq<Event>>
    requires i <= |vs|
    decreases |vs| - i
  {
    if i == |vs| then []
    else (if vs[i].pending && vs[i].read.Some? then [vs[i].read.value] else []) + PendingReads(vs, i + 1)
  }

  function Joined(all: seq<seq<Event>>): seq<Event> {
    if all == [] then [] else all[0] + Joined(all[1..])
  }

  // A pass whose reads stay within the share takes exactly the reads of the first drivers that are
  // pending, as many as are to be read.
  lemma {:induction false} PassTakesFirst(vs: seq<Visit>, i: nat, count: nat, average: nat, loop: nat)
    requires i <= |vs| && average >= 1 && average * loop <= count && ReadsFit(vs, average)
    ensures var all := PendingReads(vs, i);
      Visits(vs, i, count, average, loop) == Taken(Joined(all[..Min(loop, |all|)]))
    decreases |vs| - i
  {
    var all := PendingReads(vs, i);
    if loop == 0 {
      assert all[..Min(loop, |all|)] == [];
    } else if i == |vs| {
      assert all[..Min(loop, |all|)] == [];
    } else {
      assert average * loop >= 1 by { assert average * loop == average * (loop - 1) + average; }
      if !vs[i].pending {
        PassTakesFirst(vs, i + 1, count, average, loop);
        assert all == PendingReads(vs, i + 1);
      } else {
        var es := vs[i].read.value;
        ShareLeft(average, loop, count, |es|);
        PassTakesFirst(vs, i + 1, count - |es|, average, loop - 1);
        var rest := PendingReads(vs, i + 1);
        assert all == [es] + rest && Min(loop, |all|) == Min(loop - 1, |rest|) + 1;
        assert all[..Min(loop, |all|)] == [es] + rest[..Min(loop - 1, |rest|)];
        assert all[..Min(loop, |all|)][1..] == rest[..Min(loop - 1, |rest|)];
      }
    }
  }

  // Whatever is pending by the time of the visit, a pass takes no more than its shares.
  lemma {:induction false} VisitsFit(vs: seq<Visit>, i: nat, count: nat, average: nat, loop: nat)
    requires i <= |vs| && average * loop <= count
    ensures var t := Visits(vs, i, count, average, loop);
      !t.Overrun? && (t.Taken? ==> |t.events| <= average * loop)
    decreases |vs| - i
  {
    if count != 0 && loop != 0 && i < |vs| {
      if !vs[i].pending {
        VisitsFit(vs, i + 1, count, average, loop);
      } else if vs[i].read.Some? && |vs[i].read.value| <= average {
        var n := |vs[i].read.value|;
        assert average * loop == average * (loop - 1) + average;
        assert average * (loop - 1) >= 0;
        VisitsFit(vs, i + 1, count - n, average, loop - 1);
      }
    }
  }

  ghost predicate ReadsFit(vs: seq<Visit>, average: nat) {
    forall i | 0 <= i < |vs| && vs[i].pending :: vs[i].read.Some? && |vs[i].read.value| <= average
  }

  lemma {:induction false} GoodReadsAreTaken(vs: seq<Visit>, i: nat, count: nat, average: nat, loop: nat)
    requires i <= |vs| && average * loop <= count && ReadsFit(vs, average)
    ensures Visits(vs, i, count, average, loop).Taken?
    decreases |vs| - i
  {
    VisitsFit(vs, i, count, average, loop);
    if count != 0 && loop != 0 && i < |vs| {
      if !vs[i].pending {
        GoodReadsAreTaken(vs, i + 1, count, average, loop);
      } else {
        var n := |vs[i].read.value|;
        assert average * loop == average * (loop - 1) + average;
        assert average * (loop - 1) >= 0;
        GoodReadsAreTaken(vs, i + 1, count - n, average, loop - 1);
      }
    }
  }

  // pollEvent never delivers more than was asked for, and the second abort never happens.
  lemma {:induction false} NeverOverDelivers(env: seq<Pass>, p: nat, count: nat, sofar: seq<Event>)
    requires p < |env| && count > 0
    ensures var r := Polled(env, p, count, sofar);
      && r != Aborted(Overrun)
      && (r.Delivered? ==> sofar <= r.events && |r.events| <= |sofar| + count)
    decreases |env| - p
  {
    hide Visits, Shares;
    var (average, loop) := Shares(count, PendingCount(env[p].counted));
    SharesFit(count, PendingCount(env[p].counted));
    VisitsFit(env[p].visits, 0, count, average, loop);
    var taken := Visits(env[p].visits, 0, count, average, loop);
    if taken.Taken? && env[p].poll > 0 && count - |taken.events| > 0 && p + 1 < |env| {
      NeverOverDelivers(env, p + 1, count - |taken.events|, sofar + taken.events);
    }
  }

  // In every pass the call gets to, the reads stay within the share of that pass.
  ghost predicate AllReadsFit(env: seq<Pass>, p: nat, count: nat)
    requires p < |env|
    decreases |env| - p
  {
    var (average, loop) := Shares(count, PendingCount(env[p].counted));
    var taken := Visits(env[p].visits, 0, count, average, loop);
    && ReadsFit(env[p].visits, average)
    && (taken.Taken? && |taken.events| < count && env[p].poll > 0 && p + 1 < |env| ==>
          AllReadsFit(env, p + 1, count - |taken.events|))
  }

  // A call whose reads all stay within their shares is never aborted.
  lemma {:induction false} GoodCallIsNeverAborted(env: seq<Pass>, p: nat, count: nat, sofar: seq<Event>)
    requires p < |env| && count > 0 && AllReadsFit(env, p, count)
    ensures !Polled(env, p, count, sofar).Aborted?
    decreases |env| - p
  {
    hide Visits, Shares, ReadsFit;
    var (average, loop) := Shares(count, PendingCount(env[p].counted));
    SharesFit(count, PendingCount(env[p].counted));
    GoodReadsAreTaken(env[p].visits, 0, count, average, loop);
    var taken := Visits(env[p].visits, 0, count, average, loop);
    if env[p].poll > 0 && count - |taken.events| > 0 && p + 1 < |env| {
      GoodCallIsNeverAborted(env, p + 1, count - |taken.events|, sofar + taken.events);
    }
  }

  // ---------------------------------------------------------------- a failing poll

  function PassTaken(env: seq<Pass>, p: nat, count: nat): Taken
    requires p < |env|
  {
    var (average, loop) := Shares(count, PendingCount(env[p].counted));
    Visits(env[p].visits, 0, count, average, loop)
  }

  predicate GoesOn(env: seq<Pass>, p: nat, count: nat)
    requires p < |env|
  {
    var taken := PassTaken(env, p, count);
    taken.Taken? && env[p].poll > 0 && |taken.events| < count && p + 1 < |env|
  }

  // The pass in which the call ends.
  function LastPass(env: seq<Pass>, p: nat, count: nat): (q: nat)
    requires p < |env|
    ensures p <= q < |env|
    decreases |env| - p
  {
    if GoesOn(env, p, count) then LastPass(env, p + 1, count - |PassTaken(env, p, count).events|) else p
  }

  // The events taken from the drivers up to there.
  function Collected(env: seq<Pass>, p: nat, count: nat): seq<Event>
    requires p < |env|
    decreases |env| - p
  {
    var taken := PassTaken(env, p, count);
    if !taken.Taken? then []
    else if GoesOn(env, p, count) then taken.events + Collected(env, p + 1, count - |taken.events|)
    else taken.events
  }

  // A call that is not aborted returns the events it took exactly if the last poll() does not
  // fail; if it does, they are lost, those of earlier passes included.
  lemma {:induction false} ErrorLosesEventsIff(env: seq<Pass>, p: nat, count: nat, sofar: seq<Event>)
    requires p < |env| && !Polled(env, p, count, sofar).Aborted?
    ensures var q := LastPass(env, p, count);
      && (env[q].poll >= 0 <==> Polled(env, p, count, sofar) == Delivered(sofar + Collected(env, p, count)))
      && (env[q].poll < 0 ==> Polled(env, p, count, sofar) == PollFailed(env[q].poll))
    decreases |env| - p
  {
    hide Visits, Shares;
    if GoesOn(env, p, count) {
      var es := PassTaken(env, p, count).events;
      ErrorLosesEventsIff(env, p + 1, count - |es|, sofar + es);
      assert sofar + (es + Collected(env, p + 1, count - |es|)) == sofar + es + Collected(env, p + 1, count - |es|);
    }
  }

  // One event is read and poll() runs out of memory: the caller sees the error only.
  lemma FailedCallLosesEvent()
    ensures var env := [Pass([true], [Visit(true, Some([Data(3, 7)]))], -12)];
      Collected(env, 0, 1) == [Data(3, 7)] && Polled(env, 0, 1, []) == PollFailed(-12)
  {
    var env := [Pass([true], [Visit(true, Some([Data(3, 7)]))], -12)];
    assert [true][..0] == [] && PendingCount([true]) == 1;
    assert PassTaken(env, 0, 1) == Taken([Data(3, 7)] + []);
  }

  // ---------------------------------------------------------------- the loops

  method ComputeCountForEachFd(count: nat, counted: seq<bool>) returns (average: nat, loop: nat)
    ensures (average, loop) == Shares(count, PendingCount(counted))
  {
    var pendingFd := 0;
    for i := 0 to |counted|
      invariant pendingFd == PendingCount(counted[..i])
    {
      assert counted[..i + 1][..i] == counted[..i];
      if counted[i] {
        pendingFd := pendingFd + 1;
      }
    }
    assert counted[..|counted|] == counted;
    var temp := if pendingFd != 0 then count / pendingFd else count;
    average := if temp != 0 then temp else count;
    loop := if count < pendingFd then 1 else pendingFd;
  }

  // readEvents stores its events at the cursor, and each one is shifted there.
  method Deliver(data: array<Event>, at: nat, events: seq<Event>)
    requires at + |events| <= data.Length
    modifies data
    ensures data[..at] == old(data[..at])
    ensures data[at..at + |events|] == ShiftAll(events)
    ensures forall k | 0 <= k < |events| :: Public(events[k], data[at + k])
  {
    for j := 0 to |events|
      invariant data[..at] == old(data[..at])
      invariant forall k | 0 <= k < j :: data[at + k] == events[k]
    {
      data[at + j] := events[j];
    }
    for j := 0 to |events|
      invariant data[..at] == old(data[..at])
      invariant forall k | 0 <= k < j :: data[at + k] == Shift(events[k])
      invariant forall k | j <= k < |events| :: data[at + k] == events[k]
    {
      data[at + j] := Shift(data[at + j]);
    }
  }

  // One pass over the drivers; data and nbEvents advance together.
  method VisitAll(data: array<Event>, from: nat, vs: seq<Visit>, count: nat, average: nat, loop: nat)
    returns (nb: nat, abort: bool)
    requires from + count <= data.Length && average * loop <= count
    modifies data
    ensures abort <==> !Visits(vs, 0, count, average, loop).Taken?
    ensures data[..from] == old(data[..from])
    ensures !abort ==>
      var es := Visits(vs, 0, count, average, loop).events;
      nb == |es| <= count && data[from..from + nb] == ShiftAll(es)
  {
    hide ShiftAll, Visits;
    var left, loops, i := count, loop, 0;
    nb, abort := 0, false;
    ghost var done: seq<Event> := [];
    while left > 0 && loops > 0 && i < |vs|
      invariant i <= |vs| && left + nb == count && nb == |done| && average * loops <= left
      invariant Visits(vs, 0, count, average, loop) == Prepend(done, Visits(vs, i, left, average, loops))
      invariant data[..from] == old(data[..from])
      invariant data[from..from + nb] == ShiftAll(done)
      decreases |vs| - i
    {
      VisitsRound(vs, i, left, average, loops);
      if vs[i].pending {
        if vs[i].read.None? || |vs[i].read.value| > average {
          return nb, true;
        }
        var es := vs[i].read.value;
        ghost var before := data[..];
        Deliver(data, from + nb, es);
        Extended(before, data[..], from, done, es);
        PrependTwice(done, es, Visits(vs, i + 1, left - |es|, average, loops - 1));
        done := done + es;
        left := left - |es|;
        nb := nb + |es|;
        loops := loops - 1;
      }
      i := i + 1;
    }
    VisitsEnd(vs, i, left, average, loops);
    assert done + [] == done;
    assert ShiftAll(done) == data[from..from + nb];
  }

  // One round of the loop over the drivers.
  lemma VisitsRound(vs: seq<Visit>, i: nat, left: nat, average: nat, loops: nat)
    requires i < |vs| && left > 0 && loops > 0 && average * loops <= left
    ensures var t := Visits(vs, i, left, average, loops);
      if !vs[i].pending then t == Visits(vs, i + 1, left, average, loops)
      else if vs[i].read.None? || |vs[i].read.value| > average then t == BadRead
      else
        var n := |vs[i].read.value|;
        && n <= left && average * (loops - 1) <= left - n
        && t == Prepend(vs[i].read.value, Visits(vs, i + 1, left - n, average, loops - 1))
  {
    if vs[i].read.Some? && |vs[i].read.value| <= average {
      ShareLeft(average, loops, left, |vs[i].read.value|);
    }
  }

  lemma VisitsEnd(vs: seq<Visit>, i: nat, left: nat, average: nat, loops: nat)
    requires i <= |vs| && (left == 0 || loops == 0 || i == |vs|)
    ensures Visits(vs, i, left, average, loops) == Taken([])
  {
  }

  // Writing behind what is there extends it.
  lemma Extended(was: seq<Event>, now: seq<Event>, from: nat, done: seq<Event>, es: seq<Event>)
    requires from + |done| + |es| <= |was| == |now|
    requires was[from..from + |done|] == ShiftAll(done)
    requires now[..from + |done|] == was[..from + |done|]
    requires now[from + |done|..from + |done| + |es|] == ShiftAll(es)
    ensures now[..from] == was[..from]
    ensures now[from..from + |done + es|] == ShiftAll(done + es)
  {
    hide ShiftAll;
    var at := from + |done|;
    assert now[from..at] == now[..at][from..] == was[..at][from..] == was[from..at];
    assert now[..from] == now[..at][..from] == was[..at][..from];
    ShiftAllAppends(done, es);
    assert now[from..at + |es|] == now[from..at] + now[at..at + |es|];
  }

  lemma ShiftAllAppends(a: seq<Event>, b: seq<Event>)
    ensures ShiftAll(a + b) == ShiftAll(a) + ShiftAll(b)
  {
  }

  // What pollEvent returns, or that it gave up.
  datatype Reply = Count(n: nat) | Error(error: int) | Abort

  // pollEvent; env is what the drivers and poll() do in the passes it makes, the last of
  // which is one that poll() ends.
  method PollEvent(data: array<Event>, count: nat, env: seq<Pass>) returns (r: Reply)
    requires 0 < count <= data.Length
    requires env != [] && env[|env| - 1].poll <= 0
    modifies data
    ensures match Polled(env, 0, count, [])
            case Delivered(es) =>
              && r == Count(|es|) && |es| <= count && data[..|es|] == ShiftAll(es)
              && forall k | 0 <= k < |es| :: Public(es[k], data[k])
            case PollFailed(error) => r == Error(error)
            case Aborted(_) => r == Abort
  {
    hide Visits, Shares;
    var left, nbEvents, p := count, 0, 0;
    ghost var sofar: seq<Event> := [];
    while true
      invariant p < |env| && 0 < left && left + nbEvents == count && nbEvents == |sofar|
      invariant Polled(env, 0, count, []) == Polled(env, p, left, sofar)
      invariant data[..nbEvents] == ShiftAll(sofar)
      decreases |env| - p
    {
      var average, loop := ComputeCountForEachFd(left, env[p].counted);
      SharesFit(left, PendingCount(env[p].counted));
      ghost var before := data[..nbEvents];
      var nb, abort := VisitAll(data, nbEvents, env[p].visits, left, average, loop);
      if abort {
        return Abort;
      }
      ghost var es := Visits(env[p].visits, 0, left, average, loop).events;
      assert data[..nbEvents + nb] == before + ShiftAll(es);
      assert ShiftAll(sofar + es) == ShiftAll(sofar) + ShiftAll(es);
      sofar := sofar + es;
      left := left - nb;
      nbEvents := nbEvents + nb;
      if env[p].poll < 0 {
        return Error(env[p].poll);
      }
      if env[p].poll == 0 || left == 0 {
        ShiftedIsPublic(sofar);
        assert forall k | 0 <= k < nbEvents :: data[k] == data[..nbEvents][k];
        return Count(nbEvents);
      }
      p := p + 1;
    }
  }

  function Prepend(done: seq<Event>, t: Taken): Taken {
    if t.Taken? then Taken(done + t.events) else t
  }

  lemma PrependTwice(a: seq<Event>, b: seq<Event>, t: Taken)
    ensures Prepend(a, Prepend(b, t)) == Prepend(a + b, t)
  {
    if t.Taken? {
      assert a + (b + t.events) == a + b + t.events;
    }
  }

  lemma ShareLeft(average: nat, loops: nat, left: nat, n: nat)
    requires loops > 0 && average * loops <= left && n <= average
    ensures n <= left && average * (loops - 1) <= left - n
  {
    assert average * loops == average * (loops - 1) + average;
    assert average * (loops - 1) >= 0;
  }
}
