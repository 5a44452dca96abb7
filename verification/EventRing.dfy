// SensorEventCircularReader of SensorEventReader.cpp: a ring of N events inside a buffer of
// 2N, so that one read can run past the end of the ring and be folded back afterwards.
module EventRing {

  // What read() does with the room it is offered: it fails, leaves a torn event behind some
  // whole ones (their bytes are in the buffer but none is counted), or delivers whole events.
  datatype ReadResult<T> = Failed | Torn(written: seq<T>) | Whole(events: seq<T>)

  function Offered<T>(r: ReadResult<T>): seq<T> {
    match r
    case Failed => []
    case Torn(written) => written
    case Whole(events) => events
  }

  // The slot of the k-th buffered event.
  function Slot(n: nat, curr: nat, k: nat): int {
    if curr + k < n then curr + k else curr + k - n
  }

  // Positions of a ring: head is the next free slot, modulo the two names 0 and n of the
  // same place, and the overflow half has room for what is free.
  predicate Placed(n: nat, head: nat, curr: nat, free: nat) {
    && free <= n && head <= n && (curr < n || curr == n == 0)
    && (head == curr + (n - free) || head + n == curr + (n - free) || head == curr + (n - free) + n)
  }

  // The buffer holds the wanted events from curr on.
  ghost predicate Holds<T>(b: seq<T>, n: nat, curr: nat, want: seq<T>)
    requires |b| == 2 * n && |want| <= n && (curr < n || curr == n == 0)
  {
    forall k | 0 <= k < |want| :: b[Slot(n, curr, k)] == want[k]
  }

  // The bytes of one read, placed at the head.
  function Stored<T>(b: seq<T>, at: nat, events: seq<T>): (r: seq<T>)
    requires at + |events| <= |b|
    ensures |r| == |b|
  {
    b[..at] + events + b[at + |events|..]
  }

  // The overflow copied to the start of the ring.
  function Folded<T>(b: seq<T>, n: nat, s: nat): (r: seq<T>)
    requires n + s <= |b|
    ensures |r| == |b|
  {
    b[n..n + s] + b[s..]
  }

  function HeadAfter(n: nat, head: nat, count: nat): nat {
    if head + count > n then head + count - n else head + count
  }

  function Filled<T>(b: seq<T>, n: nat, head: nat, events: seq<T>): (r: seq<T>)
    requires |b| == 2 * n && head + |events| <= 2 * n
    ensures |r| == |b|
  {
    var b1 := Stored(b, head, events);
    if head + |events| > n then Folded(b1, n, head + |events| - n) else b1
  }

  // A read of at most the free room stays inside the buffer, and neither it nor the copy
  // touches an event that is still to be handed out.
  lemma StoreKeeps<T(!new)>(b: seq<T>, n: nat, head: nat, curr: nat, free: nat, want: seq<T>, events: seq<T>)
    requires |b| == 2 * n && Placed(n, head, curr, free) && |want| == n - free && |events| <= free
    requires Holds(b, n, curr, want)
    ensures head + |events| <= 2 * n
    ensures Holds(Stored(b, head, events), n, curr, want)
  {
    var b1 := Stored(b, head, events);
    forall k | 0 <= k < |want| ensures b1[Slot(n, curr, k)] == want[k] {
      assert b[Slot(n, curr, k)] == want[k];
    }
  }

  // After the read and the copy the ring holds the old events followed by the new ones.
  lemma FillAppends<T(!new)>(b: seq<T>, n: nat, head: nat, curr: nat, free: nat, want: seq<T>, events: seq<T>)
    requires |b| == 2 * n && Placed(n, head, curr, free) && |want| == n - free && |events| <= free
    requires Holds(b, n, curr, want)
    ensures head + |events| <= 2 * n
    ensures Placed(n, HeadAfter(n, head, |events|), curr, free - |events|)
    ensures Holds(Filled(b, n, head, events), n, curr, want + events)
  {
    hide Stored, Folded;
    StoreKeeps(b, n, head, curr, free, want, events);
    StoredAt(b, head, events);
    var b1, b2 := Stored(b, head, events), Filled(b, n, head, events);
    if head + |events| > n {
      FoldedAt(b1, n, head + |events| - n);
    }
    var all := want + events;
    forall k | 0 <= k < |all| ensures b2[Slot(n, curr, k)] == all[k] {
      var slot := Slot(n, curr, k);
      if k < |want| {
        assert b1[slot] == want[k];
      } else {
        var x := head + (k - |want|);
        assert b1[x] == events[k - |want|];
        assert slot == x || slot == x - n;
      }
    }
  }

  lemma StoredAt<T>(b: seq<T>, at: nat, events: seq<T>)
    requires at + |events| <= |b|
    ensures forall x | at <= x < at + |events| :: Stored(b, at, events)[x] == events[x - at]
    ensures forall x | 0 <= x < |b| && !(at <= x < at + |events|) :: Stored(b, at, events)[x] == b[x]
  {
  }

  lemma FoldedAt<T>(b: seq<T>, n: nat, s: nat)
    requires n + s <= |b|
    ensures forall x | 0 <= x < s :: Folded(b, n, s)[x] == b[n + x]
    ensures forall x | s <= x < |b| :: Folded(b, n, s)[x] == b[x]
  {
  }

  lemma RoomFits(n: nat, head: nat, curr: nat, free: nat)
    requires Placed(n, head, curr, free)
    ensures free <= n && head <= n
  {
  }

  lemma Grown<T>(all: seq<T>, popped: seq<T>, events: seq<T>)
    requires popped <= all
    ensures (all + events)[..|popped|] == popped
    ensures (all + events)[|popped|..] == all[|popped|..] + events
  {
  }

  class Reader<T(0,!new)> {
    const N: nat
    const buffer: array<T>
    var head: nat
    var curr: nat
    var free: nat

    // every event ever accepted and every event already handed out, in order
    ghost var accepted: seq<T>
    ghost var popped: seq<T>

    ghost predicate Valid()
      reads this, buffer
    {
      && buffer.Length == 2 * N && Placed(N, head, curr, free)
      && |popped| + (N - free) == |accepted| && popped == accepted[..|popped|]
      && Holds(buffer[..], N, curr, accepted[|popped|..])
    }

    // The events not yet handed out.
    ghost function Pending(): seq<T>
      requires Valid()
      reads this, buffer
    {
      accepted[|popped|..]
    }

    constructor (numEvents: nat)
      ensures Valid() && N == numEvents && accepted == [] && popped == [] && fresh(buffer)
    {
      N := numEvents;
      buffer := new T[2 * numEvents];
      head, curr, free := 0, 0, numEvents;
      accepted, popped := [], [];
    }

    // The bytes that read() puts into the buffer, from the head on.
    method Receive(events: seq<T>)
      requires head + |events| <= buffer.Length
      modifies buffer
      ensures buffer[..] == Stored(old(buffer[..]), head, events)
    {
      for i := 0 to |events|
        invariant forall k | 0 <= k < i :: buffer[head + k] == events[k]
        invariant forall k | 0 <= k < buffer.Length && !(head <= k < head + i) :: buffer[k] == old(buffer[k])
      {
        buffer[head + i] := events[i];
      }
    }

    // memcpy of the overflow half to the start of the ring.
    method FoldBack(s: nat)
      requires buffer.Length == 2 * N && s <= N
      modifies buffer
      ensures buffer[..] == Folded(old(buffer[..]), N, s)
    {
      for i := 0 to s
        invariant forall k | 0 <= k < i :: buffer[k] == old(buffer[N + k])
        invariant forall k | i <= k < 2 * N :: buffer[k] == old(buffer[k])
      {
        buffer[i] := buffer[N + i];
      }
    }

    method Fill(r: ReadResult<T>) returns (numEventsRead: nat)
      requires Valid() && |Offered(r)| <= free
      modifies this, buffer
      ensures Valid() && popped == old(popped)
      ensures accepted == old(accepted) + (if r.Whole? then r.events else [])
      ensures numEventsRead == if r.Whole? then |r.events| else 0
    {
      hide Holds, Stored, Folded, Placed;
      numEventsRead := 0;
      RoomFits(N, head, curr, free);
      ghost var want := accepted[|popped|..];
      if free > 0 {
        StoreKeeps(buffer[..], N, head, curr, free, want, Offered(r));
        FillAppends(buffer[..], N, head, curr, free, want, Offered(r));
        Receive(Offered(r));
        if !r.Whole? {
          return 0;
        }
        numEventsRead := |r.events|;
        if numEventsRead > 0 {
          head := head + numEventsRead;
          free := free - numEventsRead;
          if head > N {
            var s := head - N;
            FoldBack(s);
            head := s;
          }
          Grown(accepted, popped, r.events);
          accepted := accepted + r.events;
        }
      }
    }

    // readEvent: the oldest buffered event, without removing it.
    method ReadEvent() returns (available: nat, event: T)
      requires Valid() && N > 0
      ensures available == if Pending() == [] then 0 else 1
      ensures Pending() != [] ==> event == Pending()[0]
    {
      event := buffer[curr];
      available := if N - free != 0 then 1 else 0;
      assert N - free != 0 ==> buffer[..][Slot(N, curr, 0)] == event;
    }

    method PendingEvent() returns (b: bool)
      requires Valid()
      ensures b <==> Pending() != []
    {
      b := N - free != 0;
    }

    // next: called after an event was available.
    method Next()
      requires Valid() && Pending() != []
      modifies this
      ensures Valid() && accepted == old(accepted)
      ensures popped == old(popped) + [old(Pending())[0]] && Pending() == old(Pending())[1..]
    {
      ghost var want := accepted[|popped|..];
      popped := popped + [accepted[|popped|]];
      curr := curr + 1;
      free := free + 1;
      if curr >= N {
        curr := 0;
      }
      assert accepted[|popped|..] == want[1..];
      forall k | 0 <= k < N - free
        ensures buffer[..][Slot(N, curr, k)] == want[1..][k]
      {
        assert Slot(N, curr, k) == Slot(N, old(curr), k + 1);
      }
    }
  }

  // ---------------------------------------------------------------- any run

  datatype Op<T> = FillOp(r: ReadResult<T>) | PopOp

  function Delivered<T>(ops: seq<Op<T>>): seq<T> {
    if ops == [] then []
    else
      var op := ops[|ops| - 1];
      Delivered(ops[..|ops| - 1]) + (if op.FillOp? && op.r.Whole? then op.r.events else [])
  }

  // Whatever the mix of reads and pops, what was handed out followed by what is still
  // buffered is exactly what the reads delivered, in order, none lost and none twice. A read
  // that offers more than the free room cannot happen, so it ends the run.
  method Drive<T(0,!new)>(n: nat, ops: seq<Op<T>>) returns (popped: seq<T>, rest: seq<T>, done: nat)
    requires n > 0
    ensures done <= |ops| && |rest| <= n
    ensures popped + rest == Delivered(ops[..done])
    ensures done < |ops| ==> ops[done].FillOp? && |Offered(ops[done].r)| > n - |rest|
  {
    hide Holds, Slot;
    var reader := new Reader(n);
    popped := [];
    done := 0;
    while done < |ops|
      invariant done <= |ops| && reader.Valid() && reader.N == n && fresh(reader) && fresh(reader.buffer)
      invariant popped == reader.popped && reader.accepted == Delivered(ops[..done])
    {
      assert ops[..done + 1][..done] == ops[..done];
      match ops[done] {
        case FillOp(r) =>
          if |Offered(r)| > reader.free {
            break;
          }
          var count := reader.Fill(r);
        case PopOp =>
          var available, event := reader.ReadEvent();
          if available > 0 {
            reader.Next();
            popped := popped + [event];
          }
      }
      done := done + 1;
    }
    rest := Drain(reader);
  }

  lemma MoveOne<T>(front: seq<T>, back: seq<T>)
    requires back != []
    ensures front + [back[0]] + back[1..] == front + back
  {
  }

  // Pops until nothing is buffered.
  method Drain<T(0,!new)>(reader: Reader<T>) returns (rest: seq<T>)
    requires reader.Valid() && reader.N > 0
    modifies reader
    ensures rest == old(reader.Pending()) && reader.Valid() && reader.Pending() == []
  {
    hide Holds, Placed, Slot;
    rest := [];
    var more := reader.PendingEvent();
    while more
      invariant reader.Valid() && reader.N > 0
      invariant rest + reader.Pending() == old(reader.Pending())
      invariant more <==> reader.Pending() != []
      decreases |reader.Pending()|
    {
      var available, event := reader.ReadEvent();
      MoveOne(rest, reader.Pending());
      reader.Next();
      rest := rest + [event];
      more := reader.PendingEvent();
    }
  }
}
