// LockfreeBuffer of DirectChannel.cpp: a single writer fills a circular shared buffer and
// stamps each slot with a running counter after its payload is in place.
module LockfreeBuffer {

  // The parts of an event before and after the reserved0 field that carries the counter.
  datatype Event = Event(front: int, back: int)
  datatype Slot = Slot(front: int, counter: int, back: int)

  const EMPTY: Slot := Slot(0, 0, 0)

  // The writer stamps with a signed 32-bit counter that starts at 1.
  const MAX_EVENTS: nat := 0x7fff_fffe

  // What slot j holds after the events: the latest one whose index is congruent to j,
  // stamped with its index plus one.
  function Expected(events: seq<Event>, size: nat, j: nat): Slot
    requires size > 0
  {
    if events == [] then EMPTY
    else
      var k := |events| - 1;
      if k % size == j then Slot(events[k].front, k + 1, events[k].back)
      else Expected(events[..k], size, j)
  }

  lemma NextPosition(k: nat, size: nat)
    requires size > 0
    ensures (k + 1) % size == if k % size + 1 >= size then 0 else k % size + 1
  {
    var q := k / size;
    assert k == q * size + k % size;
    if k % size + 1 >= size {
      assert k + 1 == (q + 1) * size + 0;
      RemainderIs(k + 1, size, q + 1, 0);
    } else {
      RemainderIs(k + 1, size, q, k % size + 1);
    }
  }

  // A non-zero multiple of size is at least size away from zero.
  lemma Multiple(d: int, size: int)
    requires size > 0
    ensures d > 0 ==> d * size >= size
    ensures d < 0 ==> d * size <= -size
  {
  }

  lemma RemainderIs(n: nat, size: nat, q: nat, r: nat)
    requires n == q * size + r && r < size
    ensures n % size == r
  {
    var d := n / size - q;
    assert n == (n / size) * size + n % size;
    assert d * size == r - n % size;
    Multiple(d, size);
  }

  // Fewer than size apart, two indices fall on different slots.
  lemma DifferentSlots(i: nat, k: nat, size: nat)
    requires i < k < i + size
    ensures i % size != k % size
  {
    var d := k / size - i / size;
    assert k == (k / size) * size + k % size;
    assert i == (i / size) * size + i % size;
    assert d * size == (k / size) * size - (i / size) * size;
    Multiple(d, size);
  }

  // The last size events are all present, with consecutive counters.
  lemma {:induction false} LastEventsPresent(events: seq<Event>, size: nat, i: nat)
    requires size > 0 && i < |events| <= i + size
    ensures Expected(events, size, i % size) == Slot(events[i].front, i + 1, events[i].back)
  {
    var k := |events| - 1;
    if i < k {
      DifferentSlots(i, k, size);
      LastEventsPresent(events[..k], size, i);
    }
  }

  // Payload and counter of a slot belong to the same event.
  ghost predicate Agrees(slot: Slot, events: seq<Event>) {
    || slot == EMPTY
    || (1 <= slot.counter <= |events|
        && slot.front == events[slot.counter - 1].front && slot.back == events[slot.counter - 1].back)
  }

  lemma {:induction false} ExpectedAgrees(events: seq<Event>, size: nat, j: nat)
    requires size > 0
    ensures Agrees(Expected(events, size, j), events)
  {
    if events != [] {
      ExpectedAgrees(events[..|events| - 1], size, j);
    }
  }

  // ---------------------------------------------------------------- one store at a time

  // The writer between two stores: pending events, and how much of the next one is stored.
  datatype Writer = Writer(slots: seq<Slot>, pos: nat, counter: int, phase: nat, events: seq<Event>, todo: seq<Event>)

  ghost predicate WriterOk(w: Writer) {
    && |w.slots| > 0 && w.phase <= 2 && (w.phase > 0 ==> w.todo != [])
    && w.pos == |w.events| % |w.slots| && w.counter == |w.events| + 1
    && (forall j | 0 <= j < |w.slots| && (j != w.pos || w.phase == 0) ::
          w.slots[j] == Expected(w.events, |w.slots|, j))
    && (w.phase > 0 ==> w.slots[w.pos].front == w.todo[0].front)
    && (w.phase > 1 ==> w.slots[w.pos].back == w.todo[0].back)
  }

  function Store(w: Writer): Writer
    requires w.pos < |w.slots| && w.todo != []
  {
    var slot := w.slots[w.pos];
    if w.phase == 0 then w.(slots := w.slots[w.pos := slot.(front := w.todo[0].front)], phase := 1)
    else if w.phase == 1 then w.(slots := w.slots[w.pos := slot.(back := w.todo[0].back)], phase := 2)
    else Writer(w.slots[w.pos := slot.(counter := w.counter)],
                if w.pos + 1 >= |w.slots| then 0 else w.pos + 1,
                w.counter + 1, 0, w.events + [w.todo[0]], w.todo[1..])
  }

  lemma StoreOk(w: Writer)
    requires WriterOk(w) && w.todo != []
    ensures WriterOk(Store(w))
  {
    var w' := Store(w);
    if w.phase == 2 {
      NextPosition(|w.events|, |w.slots|);
      assert w'.events[..|w.events|] == w.events;
    }
  }

  function Stores(w: Writer, n: nat): Writer {
    if n == 0 then w
    else
      var w' := Stores(w, n - 1);
      if w'.pos < |w'.slots| && w'.todo != [] then Store(w') else w'
  }

  // After any number of stores, complete or not, every slot except the one being written
  // holds an event together with its own counter.
  lemma {:induction false} OnlyWriteSlotTorn(size: nat, todo: seq<Event>, n: nat, j: nat)
    requires size > 0 && j < size
    ensures WriterOk(Idle(size, todo))
    ensures var w := Stores(Idle(size, todo), n);
      && WriterOk(w) && |w.slots| == size && w.events + w.todo == todo
      && (j != w.pos || w.phase == 0 ==> Agrees(w.slots[j], w.events))
  {
    IdleOk(size, todo);
    StoresOk(size, todo, n);
    var w := Stores(Idle(size, todo), n);
    ExpectedAgrees(w.events, size, j);
  }

  function Idle(size: nat, todo: seq<Event>): Writer {
    Writer(seq(size, _ => EMPTY), 0, 1, 0, [], todo)
  }

  lemma IdleOk(size: nat, todo: seq<Event>)
    requires size > 0
    ensures WriterOk(Idle(size, todo))
  {
    RemainderIs(0, size, 0, 0);
  }

  lemma {:induction false} StoresOk(size: nat, todo: seq<Event>, n: nat)
    requires size > 0 && WriterOk(Idle(size, todo))
    ensures var w := Stores(Idle(size, todo), n);
      WriterOk(w) && |w.slots| == size && w.events + w.todo == todo
  {
    hide WriterOk, Store;
    if n > 0 {
      StoresOk(size, todo, n - 1);
      var w := Stores(Idle(size, todo), n - 1);
      if w.todo != [] {
        StorePosition(w);
        StoreOk(w);
        StoreMoves(w);
      }
    } else {
      assert [] + todo == todo;
    }
  }

  // Three stores finish an event: its two parts, then the counter. A writer with nothing left to
  // write stays as it is.
  lemma {:induction false} StoresProgress(size: nat, todo: seq<Event>, n: nat)
    requires size > 0
    ensures var w := Stores(Idle(size, todo), n);
      3 * |w.events| + w.phase == if n <= 3 * |todo| then n else 3 * |todo|
  {
    hide WriterOk, Store;
    IdleOk(size, todo);
    StoresOk(size, todo, n);
    if n > 0 {
      StoresProgress(size, todo, n - 1);
      StoresOk(size, todo, n - 1);
      var w := Stores(Idle(size, todo), n - 1);
      StorePosition(w);
      if w.todo != [] {
        StoreAdvances(w);
      }
      assert |w.events + w.todo| == |todo|;
    }
  }

  lemma StoreAdvances(w: Writer)
    requires WriterOk(w) && w.todo != []
    ensures var w' := Store(w); 3 * |w'.events| + w'.phase == 3 * |w.events| + w.phase + 1
  {
  }

  // A store takes no event away: at most it moves one from those to do to those done.
  lemma StoreMoves(w: Writer)
    requires w.pos < |w.slots| && w.todo != []
    ensures var w' := Store(w); |w'.slots| == |w.slots| && w'.events + w'.todo == w.events + w.todo
  {
    assert w.events + [w.todo[0]] + w.todo[1..] == w.events + w.todo;
  }

  lemma StorePosition(w: Writer)
    requires WriterOk(w)
    ensures w.pos < |w.slots| && w.phase <= 2 && (w.todo == [] ==> w.phase == 0)
  {
  }

  // ---------------------------------------------------------------- the buffer

  class Buffer {
    const data: array<Slot>
    var writePos: nat
    var counter: int
    ghost var history: seq<Event>

    ghost predicate Valid()
      reads this, data
    {
      && counter == |history| + 1
      && (data.Length > 0 ==> writePos == |history| % data.Length)
      && (data.Length == 0 ==> history == [])
      && forall j | 0 <= j < data.Length :: data[j] == Expected(history, data.Length, j)
    }

    constructor (size: nat)
      ensures Valid() && data.Length == size && history == [] && fresh(data)
    {
      data := new Slot[size](_ => EMPTY);
      writePos, counter, history := 0, 1, [];
      new;
      if size > 0 {
        RemainderIs(0, size, 0, 0);
      }
    }

    method Write(evs: seq<Event>)
      requires Valid() && |history| + |evs| <= MAX_EVENTS
      modifies this, data
      ensures Valid()
      ensures history == old(history) + (if data.Length == 0 then [] else evs)
    {
      if data.Length == 0 {
        return;
      }
      for i := 0 to |evs|
        invariant Valid() && history == old(history) + evs[..i]
      {
        WriteOne(evs[i]);
        assert evs[..i + 1] == evs[..i] + [evs[i]];
      }
      assert evs[..|evs|] == evs;
    }

    // The body of the loop: two copies, the stamp, and the position wrapping around.
    method WriteOne(ev: Event)
      requires Valid() && data.Length > 0 && |history| < MAX_EVENTS
      modifies this, data
      ensures Valid() && history == old(history) + [ev]
    {
      NextPosition(|history|, data.Length);
      data[writePos] := data[writePos].(front := ev.front);
      data[writePos] := data[writePos].(back := ev.back);
      data[writePos] := data[writePos].(counter := counter);
      counter := counter + 1;
      history := history + [ev];
      assert history[..|history| - 1] == old(history);
      writePos := writePos + 1;
      if writePos >= data.Length {
        writePos := 0;
      }
    }
  }
}
