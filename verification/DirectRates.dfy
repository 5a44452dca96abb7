// Every run of the direct channel manager: the merged level, the subscriptions, the live
// channels and the registration with the sensor manager stay consistent.
module DirectRates {
  import opened Basics
  import opened KeyedVector
  import opened SensorManager
  import opened Arbitration
  import opened DirectChannels

  lemma IntLessIsOrder()
    ensures StrictOrder(IntLess)
  {
  }

  lemma {:induction false} HighestIsMaximum(es: Subs)
    ensures Highest(es) >= STOP
    ensures forall e | e in es :: e.value <= Highest(es)
    ensures Highest(es) != STOP ==> exists e | e in es :: e.value == Highest(es)
  {
    if es != [] {
      var front, last := es[..|es| - 1], es[|es| - 1];
      assert es == front + [last];
      HighestIsMaximum(front);
      assert last in es;
      if Highest(es) == Highest(front) && Highest(front) != STOP {
        var e :| e in front && e.value == Highest(front);
        assert e in es;
      }
    }
  }

  // ---------------------------------------------------------------- the subscriptions

  // The subscriptions of one sensor: by live channels, at the levels normal and fast.
  ghost predicate SubsOk(d: State, h: int)
    requires h in d.subs
  {
    && Sorted(IntLess, d.subs[h])
    && forall e | e in d.subs[h] :: STOP < e.value <= FAST && e.key in d.channels
  }

  // A level is stored exactly when somebody subscribes, and no subscriber asks for more.
  ghost predicate LevelOk(d: State, h: int) {
    && (h in d.levels <==> h in d.subs && d.subs[h] != [])
    && (h in d.levels ==> STOP < d.levels[h] <= FAST && forall e | e in d.subs[h] :: e.value <= d.levels[h])
  }

  ghost predicate Live(d: State) { forall ch | ch in d.channels :: ch < d.next }

  ghost predicate StateOk(d: State) {
    && d.subs.Keys == START.subs.Keys
    && (forall h | h in d.subs :: SubsOk(d, h))
    && (forall h :: LevelOk(d, h))
    && Live(d)
  }

  // The connection is registered with the sensor manager exactly where a level is stored, and
  // with the request that the level stands for.
  ghost predicate RegisteredOk(e: Setup, w: World, h: int) {
    h in w.m ==> Folded(w.m[h]) && Lookup(w.m[h].clients, e.conn) == Registration(e, w.d, h)
  }

  function Registration(e: Setup, d: State, h: int): Option<Params> {
    if h in d.levels then Some(RequestFor(e, d, h, d.levels[h])) else None
  }

  ghost predicate Inv(e: Setup, w: World) {
    StateOk(w.d) && forall h :: RegisteredOk(e, w, h)
  }

  lemma SubsHighest(d: State, h: int)
    requires h in d.subs && SubsOk(d, h)
    ensures Level(d, h) == STOP <==> d.subs[h] == []
  {
    HighestIsMaximum(d.subs[h]);
    if d.subs[h] != [] {
      assert d.subs[h][0] in d.subs[h];
    }
  }

  // ---------------------------------------------------------------- the registration

  predicate CallsOk(c: Calls) { c.batch >= 0 && c.rebatch >= 0 && c.activate == 0 }

  lemma BatchRegisters(s: Sensor, c: Conn, p: Params, result: int)
    requires Folded(s) && result >= 0
    ensures Folded(Batched(s, c, p, result)) && Lookup(Batched(s, c, p, result).clients, c) == Some(p)
  {
    hide Best, Add, Lookup;
    ApplyKeepsFolded(s, BatchOp(c, p, result));
    ClientsAfterAdd(s.clients, c, p);
    ConnLessIsOrder();
    LookupIn(ConnLess, Add(ConnLess, s.clients, c, p), Entry(c, p));
  }

  lemma ActivateRegisters(s: Sensor, c: Conn, enable: bool, rebatch: int, result: int)
    requires Folded(s) && result == 0
    ensures Folded(Activated(s, c, enable, rebatch, result))
    ensures Lookup(Activated(s, c, enable, rebatch, result).clients, c)
         == if enable then Lookup(s.clients, c) else None
  {
    hide Best, Remove, Lookup;
    ApplyKeepsFolded(s, ActivateOp(c, enable, rebatch, result));
    ClientsAfterRemove(s.clients, c);
    HasKeyIn(Remove(s.clients, c), c);
  }

  lemma OtherConnKeeps(s: Sensor, op: SensorOp, c: Conn)
    requires Folded(s) && op.c != c
    ensures Folded(Apply(s, op)) && Lookup(Apply(s, op).clients, c) == Lookup(s.clients, c)
  {
    hide Best, Add, Remove, HasKey, Lookup;
    ApplyKeepsFolded(s, op);
    ClientsAfterRemove(s.clients, op.c);
    if op.BatchOp? {
      ClientsAfterAdd(s.clients, op.c, op.p);
      ClientsAfterRemove(Add(ConnLess, s.clients, op.c, op.p), op.c);
    }
    ConnLessIsOrder();
    SameLookup(ConnLess, s.clients, Apply(s, op).clients, c);
  }

  lemma HasKeyIn(cs: Clients, c: Conn)
    ensures HasKey(cs, c) <==> exists e :: e in cs && e.key == c
  {
    if HasKey(cs, c) {
      var i :| 0 <= i < |cs| && cs[i].key == c;
      assert cs[i] in cs;
    }
  }

  // ---------------------------------------------------------------- merging one sensor

  // Everything holds except that the levels of the sensors in p may be out of date.
  ghost predicate InvBut(e: Setup, w: World, p: set<int>) {
    && w.d.subs.Keys == START.subs.Keys
    && (forall k | k in w.d.subs :: SubsOk(w.d, k))
    && (forall k | k !in p :: LevelOk(w.d, k))
    && p <= w.d.subs.Keys
    && Live(w.d)
    && forall k :: RegisteredOk(e, w, k)
  }

  lemma MergedLevels(e: Setup, w: World, h: int, c: Calls)
    requires h in w.d.subs && SubsOk(w.d, h)
    ensures var w' := Merged(e, w, h, c);
      w'.d == w.d.(levels := if w.d.subs[h] == [] then w.d.levels - {h} else w.d.levels[h := Level(w.d, h)])
  {
    hide BatchAt, ActivateAt, Asked;
    SubsHighest(w.d, h);
    if w.d.subs[h] == [] && h !in w.d.levels {
      assert w.d.levels - {h} == w.d.levels;
    }
  }

  lemma MergedLevelOk(e: Setup, w: World, h: int, c: Calls)
    requires h in w.d.subs && SubsOk(w.d, h)
    ensures LevelOk(Merged(e, w, h, c).d, h)
    ensures h in Merged(e, w, h, c).d.levels ==> Merged(e, w, h, c).d.levels[h] == Level(w.d, h)
  {
    hide Merged, RegisteredOk;
    MergedLevels(e, w, h, c);
    HighestIsMaximum(w.d.subs[h]);
  }

  lemma MergedRegistered(e: Setup, w: World, h: int, c: Calls)
    requires RegisteredOk(e, w, h) && CallsOk(c)
    ensures RegisteredOk(e, Merged(e, w, h, c), h)
  {
    hide Batched, Activated, Folded, Lookup, PeriodOf, MinDelayNs;
    if h in w.m {
      var p := Asked(e, w.d, h);
      BatchRegisters(w.m[h], e.conn, p, c.batch);
      ActivateRegisters(Batched(w.m[h], e.conn, p, c.batch), e.conn, true, c.rebatch, c.activate);
      if h in w.d.levels {
        ActivateRegisters(w.m[h], e.conn, false, c.rebatch, c.activate);
      }
    }
  }

  lemma MergedElsewhere(e: Setup, w: World, h: int, c: Calls, k: int)
    requires k != h
    ensures var w' := Merged(e, w, h, c);
      && (k in w'.m <==> k in w.m) && (k in w.m ==> w'.m[k] == w.m[k])
      && (k in w'.d.levels <==> k in w.d.levels) && (k in w.d.levels ==> w'.d.levels[k] == w.d.levels[k])
      && w'.d.subs == w.d.subs && w'.d.channels == w.d.channels && w'.d.next == w.d.next
  {
    hide Batched, Activated, Asked, Level;
  }

  // Merging brings the level of the sensor up to date: it is the maximum of its subscribers.
  lemma MergedOk(e: Setup, w: World, h: int, c: Calls, p: set<int>)
    requires InvBut(e, w, p) && h in w.d.subs && CallsOk(c)
    ensures InvBut(e, Merged(e, w, h, c), p - {h})
    ensures Merged(e, w, h, c).d.subs == w.d.subs
    ensures h in Merged(e, w, h, c).d.levels ==> Merged(e, w, h, c).d.levels[h] == Level(w.d, h)
  {
    hide Merged, SubsOk, Live, LevelOk, RegisteredOk;
    var w' := Merged(e, w, h, c);
    MergedElsewhere(e, w, h, c, h + 1);
    MergedLevelOk(e, w, h, c);
    MergedRegistered(e, w, h, c);
    SameSubs(w.d, w'.d);
    forall k ensures k !in p - {h} ==> LevelOk(w'.d, k)
             ensures RegisteredOk(e, w', k) {
      if k != h {
        MergedElsewhere(e, w, h, c, k);
        KeptAt(e, w, w', k);
      }
    }
  }

  lemma {:induction false} MergedAllOk(e: Setup, w: World, hs: seq<int>, calls: int -> Calls, p: set<int>)
    requires InvBut(e, w, p) && (forall h | h in hs :: h in w.d.subs) && (forall k :: CallsOk(calls(k)))
    ensures InvBut(e, MergedAll(e, w, hs, calls), p - (set h | h in hs))
    ensures MergedAll(e, w, hs, calls).d.subs == w.d.subs
  {
    hide Merged, InvBut, CallsOk;
    if hs == [] {
      assert p - (set h | h in hs) == p;
    } else {
      var front, last := hs[..|hs| - 1], hs[|hs| - 1];
      assert hs == front + [last];
      MergedAllOk(e, w, front, calls, p);
      var q := p - (set h | h in front);
      MergedOk(e, MergedAll(e, w, front, calls), last, calls(last), q);
      assert p - (set h | h in hs) == q - {last};
    }
  }

  lemma SameSubs(d: State, d': State)
    requires d'.subs == d.subs && d'.channels == d.channels && d'.next == d.next
    ensures forall k | k in d.subs :: SubsOk(d, k) ==> SubsOk(d', k)
    ensures Live(d) ==> Live(d')
  {
  }

  lemma KeptAt(e: Setup, w: World, w': World, k: int)
    requires w'.d.subs == w.d.subs
    requires (k in w'.m <==> k in w.m) && (k in w.m ==> w'.m[k] == w.m[k])
    requires (k in w'.d.levels <==> k in w.d.levels) && (k in w.d.levels ==> w'.d.levels[k] == w.d.levels[k])
    ensures LevelOk(w.d, k) ==> LevelOk(w'.d, k)
    ensures RegisteredOk(e, w, k) ==> RegisteredOk(e, w', k)
  {
  }

  // ---------------------------------------------------------------- the operations

  lemma SubscribedOk(d: State, h: int, ch: int, level: int)
    requires h in d.subs && SubsOk(d, h) && ch in d.channels && STOP <= level <= FAST
    ensures SubsOk(Subscribed(d, h, ch, level), h)
  {
    hide Add, Remove;
    IntLessIsOrder();
    RemoveIsDelete(IntLess, d.subs[h], ch);
    if level != STOP {
      AddIsUpdate(IntLess, Remove(d.subs[h], ch), ch, level);
    }
  }

  // Configuring a report keeps everything consistent and leaves the sensor at exactly the
  // maximum level of its subscribers.
  lemma ConfiguredOk(e: Setup, w: World, h: int, ch: int, rate: int, calls: int -> Calls)
    requires Inv(e, w) && rate >= STOP && (forall k :: CallsOk(calls(k)))
    requires h != -1 || rate != STOP
    ensures var w' := Configured(e, w, h, ch, rate, calls);
      && Inv(e, w')
      && (ch in w.d.channels && h in w'.d.levels ==> w'.d.levels[h] == Level(w'.d, h))
  {
    hide Merged, Highest, Lookup, Folded, Add, Remove;
    if ch in w.d.channels && h in w.d.subs {
      var d := Subscribed(w.d, h, ch, ClampLevel(rate));
      var w1 := w.(d := d);
      SubscribedOk(w.d, h, ch, ClampLevel(rate));
      assert LevelOk(w.d, h);
      assert InvBut(e, w1, {h}) by {
        forall k | k in d.subs ensures SubsOk(d, k) { assert SubsOk(w.d, k); }
        forall k | k != h ensures LevelOk(d, k) { assert LevelOk(w.d, k); }
        forall k ensures RegisteredOk(e, w1, k) { assert RegisteredOk(e, w, k); }
        assert d.subs.Keys == w.d.subs.Keys;
      }
      MergedOk(e, w1, h, calls(h), {h});
      NothingPending(e, Merged(e, w1, h, calls(h)));
    } else if ch in w.d.channels {
      assert LevelOk(w.d, h);
    }
  }

  lemma NothingPending(e: Setup, w: World)
    requires InvBut(e, w, {})
    ensures Inv(e, w)
  {
    hide SubsOk, LevelOk, RegisteredOk, Live;
  }

  // Erasing a channel leaves out of date at most the sensors it was the last subscriber of.
  lemma ErasedOk(e: Setup, w: World, ch: int)
    requires Inv(e, w)
    ensures var w1 := w.(d := w.d.(subs := Erased(w.d.subs, ch)));
      && InvBut(e, w1, set h | h in ToStop(w.d.subs, ch, HANDLES))
      && forall h | h in w1.d.subs :: forall x | x in w1.d.subs[h] :: x.key != ch
  {
    hide Remove, HasKey, ToStop, Folded, Lookup;
    var d := w.d.(subs := Erased(w.d.subs, ch));
    var w1 := w.(d := d);
    IntLessIsOrder();
    forall k | k in d.subs
      ensures SubsOk(d, k) && forall x | x in d.subs[k] :: x.key != ch
    {
      assert SubsOk(w.d, k);
      RemoveIsDelete(IntLess, w.d.subs[k], ch);
    }
    forall k ensures k !in ToStop(w.d.subs, ch, HANDLES) ==> LevelOk(d, k) {
      assert LevelOk(w.d, k);
      if k in d.subs {
        assert SubsOk(w.d, k);
        RemoveIsDelete(IntLess, w.d.subs[k], ch);
        InToStop(w.d.subs, ch, HANDLES, k);
        HandlesAreAll(w.d.subs);
        if !HasKey(w.d.subs[k], ch) {
          RemoveAbsent(w.d.subs[k], ch);
        } else {
          HasKeyNonempty(w.d.subs[k], ch);
        }
      }
    }
    forall k ensures RegisteredOk(e, w1, k) { assert RegisteredOk(e, w, k); }
    assert d.subs.Keys == w.d.subs.Keys;
    assert Live(d);
  }

  lemma {:induction false} InToStop(subs: map<int, Subs>, ch: int, hs: seq<int>, k: int)
    ensures k in ToStop(subs, ch, hs)
       <==> k in hs && k in subs && HasKey(subs[k], ch) && Remove(subs[k], ch) == []
  {
    hide HasKey, Remove;
    if hs != [] {
      InToStop(subs, ch, hs[..|hs| - 1], k);
      assert hs == hs[..|hs| - 1] + [hs[|hs| - 1]];
    }
  }

  lemma HasKeyNonempty(es: Subs, ch: int)
    requires HasKey(es, ch)
    ensures es != []
  {
  }

  lemma {:induction false} RemoveAbsent(es: Subs, ch: int)
    requires !HasKey(es, ch)
    ensures Remove(es, ch) == es
  {
    if es != [] {
      assert forall i | 0 <= i < |es[1..]| :: es[1..][i] == es[i + 1];
      RemoveAbsent(es[1..], ch);
    }
  }

  lemma StoppedOk(e: Setup, w: World, ch: int, calls: int -> Calls)
    requires Inv(e, w) && (forall k :: CallsOk(calls(k)))
    ensures Inv(e, Stopped(e, w, ch, calls))
    ensures ch in w.d.channels ==>
      forall h | h in Stopped(e, w, ch, calls).d.subs ::
        forall x | x in Stopped(e, w, ch, calls).d.subs[h] :: x.key != ch
  {
    hide Inv, InvBut, MergedAll, Erased, ToStop, CallsOk;
    if ch in w.d.channels {
      var w1 := w.(d := w.d.(subs := Erased(w.d.subs, ch)));
      var hs := ToStop(w.d.subs, ch, HANDLES);
      ErasedOk(e, w, ch);
      ErasedKeys(w.d.subs, ch);
      MergedAllOk(e, w1, hs, calls, set h | h in hs);
      assert (set h | h in hs) - (set h | h in hs) == {};
      NothingPending(e, MergedAll(e, w1, hs, calls));
    }
  }

  lemma ErasedKeys(subs: map<int, Subs>, ch: int)
    ensures Erased(subs, ch).Keys == subs.Keys
  {
    hide Remove;
  }

  // A removed channel is not live any more and nobody refers to it.
  lemma RemovedOk(e: Setup, w: World, ch: int, calls: int -> Calls)
    requires Inv(e, w) && (forall k :: CallsOk(calls(k)))
    ensures Inv(e, Removed(e, w, ch, calls))
  {
    hide Stopped, CallsOk;
    StoppedOk(e, w, ch, calls);
    var w1 := Stopped(e, w, ch, calls);
    var w2 := Removed(e, w, ch, calls);
    if ch !in w.d.channels {
      StoppedSame(e, w, ch, calls);
    }
    hide Folded, Lookup;
    forall k | k in w2.d.subs ensures SubsOk(w2.d, k) { assert SubsOk(w1.d, k); }
    forall k ensures LevelOk(w2.d, k) { assert LevelOk(w1.d, k); }
    forall k ensures RegisteredOk(e, w2, k) { assert RegisteredOk(e, w1, k); }
  }

  lemma StoppedSame(e: Setup, w: World, ch: int, calls: int -> Calls)
    requires ch !in w.d.channels
    ensures Stopped(e, w, ch, calls) == w
  {
  }

  lemma AddedOk(e: Setup, w: World, mem: Memory)
    requires Inv(e, w)
    ensures Inv(e, Added(w, mem))
  {
    hide Folded, Lookup;
    var w' := Added(w, mem);
    forall k | k in w'.d.subs ensures SubsOk(w'.d, k) { assert SubsOk(w.d, k); }
    forall k ensures LevelOk(w'.d, k) { assert LevelOk(w.d, k); }
    forall k ensures RegisteredOk(e, w', k) { assert RegisteredOk(e, w, k); }
  }

  // ---------------------------------------------------------------- every run

  datatype DirectOp =
    | AddOp(mem: Memory)
    | RemoveOp(ch: int, calls: int -> Calls)
    | ConfigOp(h: int, ch: int, rate: int, calls: int -> Calls)
    | OtherOp(h: int, op: SensorOp)
    | OtherStep(h: int, step: ClientStep)

  // Levels are non-negative and the driver accepts the calls the manager makes; other
  // connections do as they like with the same sensors.
  ghost predicate Allowed(e: Setup, op: DirectOp) {
    match op
    case AddOp(_) => true
    case RemoveOp(_, calls) => forall k :: CallsOk(calls(k))
    case ConfigOp(_, _, rate, calls) => rate >= STOP && forall k :: CallsOk(calls(k))
    case OtherOp(_, o) => o.c != e.conn
    case OtherStep(_, step) => step.c != e.conn
  }

  function Take(e: Setup, w: World, op: DirectOp): World {
    match op
    case AddOp(mem) => Added(w, mem)
    case RemoveOp(ch, calls) => Removed(e, w, ch, calls)
    case ConfigOp(h, ch, rate, calls) => Configured(e, w, h, ch, rate, calls)
    case OtherOp(h, o) => if h in w.m then w.(m := w.m[h := Apply(w.m[h], o)]) else w
    case OtherStep(h, step) => w.(m := SteppedAt(w.m, h, step))
  }

  function Run(e: Setup, m: Sensors, ops: seq<DirectOp>): World {
    if ops == [] then World(START, m) else Take(e, Run(e, m, ops[..|ops| - 1]), ops[|ops| - 1])
  }

  lemma OtherOk(e: Setup, w: World, h: int, op: SensorOp)
    requires Inv(e, w) && op.c != e.conn
    ensures Inv(e, Take(e, w, OtherOp(h, op)))
  {
    hide Folded, Lookup, Apply, StateOk;
    var w' := Take(e, w, OtherOp(h, op));
    forall k ensures RegisteredOk(e, w', k) {
      assert RegisteredOk(e, w, k);
      if k == h && h in w.m {
        OtherConnKeeps(w.m[h], op, e.conn);
      }
    }
  }

  lemma OtherStepOk(e: Setup, w: World, h: int, step: ClientStep)
    requires Inv(e, w) && step.c != e.conn
    ensures Inv(e, Take(e, w, OtherStep(h, step)))
  {
    hide Folded, Lookup, Stepped, StateOk;
    var w' := Take(e, w, OtherStep(h, step));
    forall k ensures RegisteredOk(e, w', k) {
      assert RegisteredOk(e, w, k);
      if k == h && h in w.m {
        OtherStepKeeps(w.m[h], step, e.conn);
      }
    }
  }

  lemma OtherStepKeeps(s: Sensor, step: ClientStep, c: Conn)
    requires Folded(s) && step.c != c
    ensures Folded(Stepped(s, step)) && Lookup(Stepped(s, step).clients, c) == Lookup(s.clients, c)
  {
    hide Folded, Lookup, Batched, Activated;
    match step {
      case Attach(d, p, batchResult, result) =>
        OtherConnKeeps(s, BatchOp(d, p, batchResult), c);
        OtherConnKeeps(Batched(s, d, p, batchResult), ActivateOp(d, true, 0, result), c);
      case Change(d, p, batchResult) => OtherConnKeeps(s, BatchOp(d, p, batchResult), c);
      case Reenable(d, result) => OtherConnKeeps(s, ActivateOp(d, true, 0, result), c);
      case Detach(d, batchResult, result) => OtherConnKeeps(s, ActivateOp(d, false, batchResult, result), c);
    }
  }

  // Over all runs of add, remove and config: a level is stored exactly for the sensors
  // somebody subscribes to, it is no lower than any subscriber's, subscribers are live
  // channels, and the connection is registered exactly where a level is stored.
  lemma {:induction false} EveryRunIsConsistent(e: Setup, m: Sensors, ops: seq<DirectOp>)
    requires (forall h | h in m :: m[h] == IDLE) && (forall i | 0 <= i < |ops| :: Allowed(e, ops[i]))
    ensures Inv(e, Run(e, m, ops))
  {
    hide Inv, Take;
    if ops == [] {
      StartOk(e, m);
    } else {
      var w, op := Run(e, m, ops[..|ops| - 1]), ops[|ops| - 1];
      EveryRunIsConsistent(e, m, ops[..|ops| - 1]);
      TakeOk(e, w, op);
    }
  }

  lemma TakeOk(e: Setup, w: World, op: DirectOp)
    requires Inv(e, w) && Allowed(e, op)
    ensures Inv(e, Take(e, w, op))
  {
    hide Inv, Stopped, Removed, Added, Merged;
    match op {
      case AddOp(mem) => AddedOk(e, w, mem);
      case RemoveOp(ch, calls) => RemovedOk(e, w, ch, calls);
      case ConfigOp(h, ch, rate, calls) =>
        if h == -1 && rate == STOP {
          StoppedOk(e, w, ch, calls);
        } else {
          ConfiguredOk(e, w, h, ch, rate, calls);
        }
      case OtherOp(h, o) => OtherOk(e, w, h, o);
      case OtherStep(h, step) => OtherStepOk(e, w, h, step);
    }
  }

  lemma StartOk(e: Setup, m: Sensors)
    requires forall h | h in m :: m[h] == IDLE
    ensures Inv(e, World(START, m))
  {
    IdleBest();
    NoKeyInNothing(e.conn);
    hide Best, HasKey;
    forall h ensures RegisteredOk(e, World(START, m), h) { }
  }

  // ---------------------------------------------------------------- negative levels

  // With a negative level the stored level and the subscriptions agree after the call
  // exactly when some other channel subscribes to the sensor too.
  lemma LevelAgreesIff(e: Setup, w: World, h: int, ch: int, rate: int, calls: int -> Calls)
    requires Inv(e, w) && ch in w.d.channels && h in w.d.subs
    requires h != -1
    ensures var d := Configured(e, w, h, ch, rate, calls).d;
      (h in d.levels <==> d.subs[h] != [])
        <==> rate >= STOP || exists x :: x in w.d.subs[h] && x.key != ch
  {
    hide Add, Remove, RegisteredOk, Asked, BatchAt, ActivateAt;
    var d := Subscribed(w.d, h, ch, ClampLevel(rate));
    assert SubsOk(w.d, h);
    assert LevelOk(w.d, h);
    IntLessIsOrder();
    var rest := Remove(w.d.subs[h], ch);
    RemoveIsDelete(IntLess, w.d.subs[h], ch);
    AddIsUpdate(IntLess, rest, ch, ClampLevel(rate));
    HighestIsMaximum(d.subs[h]);
    if rate > STOP {
      assert Entry(ch, ClampLevel(rate)) in d.subs[h];
    } else if rate < STOP {
      assert Entry(ch, rate) in d.subs[h];
      if x :| x in w.d.subs[h] && x.key != ch {
        assert x in rest && x in d.subs[h];
      }
    } else if rest != [] {
      assert rest[0] in rest;
    }
  }

  // From one channel and one sensor on, a negative level is subscribed to but not stored, and
  // the sensor is not even registered.
  lemma NegativeLevelIsNotStored(e: Setup, calls: int -> Calls)
    ensures var w := Configured(e, Added(World(DirectChannels.START, map[]), Mapped), 0, 1, -1, calls);
      w.d.subs[0] == [Entry(1, -1)] && 0 !in w.d.levels
  {
    var es: Subs := [Entry(1, -1)];
    assert es[..0] == [] && Highest(es) == STOP;
  }
}
