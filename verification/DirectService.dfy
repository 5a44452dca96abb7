// Whether the sensors run as fast as the direct channels need: they do when the other clients
// take whole steps in order and the driver accepts the calls.
module DirectService {
  import opened Basics
  import opened KeyedVector
  import opened SensorManager
  import opened Arbitration
  import opened DirectChannels
  import opened DirectRates

  // Every sensor programmed with its best request, and on exactly while somebody is registered.
  ghost predicate Healthy(m: Sensors) {
    (forall h | h in m :: SensorOk(m[h])) && AllSynced(m)
  }

  // What a merge does to the sensor is a step of a client, or nothing.
  function MergeStep(e: Setup, w: World, h: int, c: Calls): Option<ClientStep> {
    var level, had := Level(w.d, h), h in w.d.levels;
    if level != STOP then
      if !had then Some(Attach(e.conn, Asked(e, w.d, h), c.batch, c.activate))
      else if w.d.levels[h] == level then None
      else Some(Change(e.conn, Asked(e, w.d, h), c.batch))
    else if had then Some(Detach(e.conn, c.rebatch, c.activate))
    else None
  }

  lemma MergeIsStep(e: Setup, w: World, h: int, c: Calls)
    ensures Merged(e, w, h, c).m ==
      match MergeStep(e, w, h, c)
      case None => w.m
      case Some(step) => SteppedAt(w.m, h, step)
  {
    hide Batched, Asked, Level;
  }

  lemma AskedIsNonNegative(e: Setup, d: State, h: int)
    ensures NonNegative(Asked(e, d, h))
  {
    hide MinDelayNs, Level;
  }

  // A step that the driver accepts keeps all sensors healthy.
  lemma StepKeepsHealthy(m: Sensors, h: int, step: ClientStep)
    requires Healthy(m)
    requires h in m ==> InOrder(m[h], step) && StepAccepted(step) && !LosesDriver(m[h], step)
    ensures Healthy(SteppedAt(m, h, step))
  {
    hide InOrder, StepAccepted, LosesDriver, Stepped, AllSynced;
    assert forall k | k in m :: Folded(m[k]);
    hide SensorOk;
    StepKeepsSynced(m, h, step);
    if h in m {
      StepOk(m[h], step);
    }
  }

  lemma MergedHealthy(e: Setup, w: World, h: int, c: Calls)
    requires Healthy(w.m) && RegisteredOk(e, w, h) && CallsOk(c)
    ensures Healthy(Merged(e, w, h, c).m)
  {
    hide Healthy, Merged, Level, Asked, RequestFor, Folded, Lookup;
    MergeIsStep(e, w, h, c);
    AskedIsNonNegative(e, w.d, h);
    if MergeStep(e, w, h, c).Some? {
      StepKeepsHealthy(w.m, h, MergeStep(e, w, h, c).value);
    }
  }

  lemma {:induction false} MergedAllHealthy(e: Setup, w: World, hs: seq<int>, calls: int -> Calls, p: set<int>)
    requires InvBut(e, w, p) && (forall h | h in hs :: h in w.d.subs) && (forall k :: CallsOk(calls(k)))
    requires Healthy(w.m)
    ensures Healthy(MergedAll(e, w, hs, calls).m)
  {
    hide Merged, Healthy, CallsOk, RegisteredOk, SubsOk, LevelOk, Live;
    if hs != [] {
      var front, last := hs[..|hs| - 1], hs[|hs| - 1];
      assert hs == front + [last];
      MergedAllHealthy(e, w, front, calls, p);
      MergedAllOk(e, w, front, calls, p);
      MergedHealthy(e, MergedAll(e, w, front, calls), last, calls(last));
    }
  }

  // Others take whole steps in order, and none that loses the driver.
  ghost predicate Disciplined(w: World, op: DirectOp) {
    match op
    case OtherOp(_, _) => false
    case OtherStep(h, step) =>
      h in w.m ==> InOrder(w.m[h], step) && StepAccepted(step) && !LosesDriver(w.m[h], step)
    case _ => true
  }

  lemma ConfiguredHealthy(e: Setup, w: World, h: int, ch: int, rate: int, calls: int -> Calls)
    requires Inv(e, w) && Healthy(w.m) && (forall k :: CallsOk(calls(k))) && (h != -1 || rate != STOP)
    ensures Healthy(Configured(e, w, h, ch, rate, calls).m)
  {
    hide Healthy, Merged, Folded, Lookup, RequestFor, StateOk, Add, Remove;
    if ch in w.d.channels && h in w.d.subs {
      var w1 := w.(d := Subscribed(w.d, h, ch, ClampLevel(rate)));
      assert RegisteredOk(e, w, h);
      assert w1.d.subs.Keys == w.d.subs.Keys;
      SameRequest(e, w.d, w1.d, h);
      MergedHealthy(e, w1, h, calls(h));
    }
  }

  lemma SameRequest(e: Setup, d: State, d': State, h: int)
    requires d'.subs.Keys == d.subs.Keys && d'.levels == d.levels
    ensures Registration(e, d', h) == Registration(e, d, h)
  {
    hide MinDelayNs, PeriodOf;
  }

  lemma StoppedHealthy(e: Setup, w: World, ch: int, calls: int -> Calls)
    requires Inv(e, w) && Healthy(w.m) && (forall k :: CallsOk(calls(k)))
    ensures Healthy(Stopped(e, w, ch, calls).m)
  {
    hide Inv, Healthy, InvBut, MergedAll, Erased, ToStop, CallsOk;
    if ch in w.d.channels {
      var hs := ToStop(w.d.subs, ch, HANDLES);
      ErasedOk(e, w, ch);
      ErasedKeys(w.d.subs, ch);
      MergedAllHealthy(e, w.(d := w.d.(subs := Erased(w.d.subs, ch))), hs, calls, set h | h in hs);
    }
  }

  lemma TakeHealthy(e: Setup, w: World, op: DirectOp)
    requires Inv(e, w) && Healthy(w.m) && Allowed(e, op) && Disciplined(w, op)
    ensures Healthy(Take(e, w, op).m)
  {
    hide Inv, Healthy, Stopped, Added, Merged;
    match op {
      case AddOp(mem) => AddedSensors(w, mem);
      case RemoveOp(ch, calls) => StoppedHealthy(e, w, ch, calls);
      case ConfigOp(h, ch, rate, calls) =>
        if h == -1 && rate == STOP {
          StoppedHealthy(e, w, ch, calls);
        } else {
          ConfiguredHealthy(e, w, h, ch, rate, calls);
        }
      case OtherStep(h, step) => StepKeepsHealthy(w.m, h, step);
    }
  }

  lemma AddedSensors(w: World, mem: Memory)
    ensures Added(w, mem).m == w.m
  {
  }

  // The period a level stands for on this sensor, raised to the sensor's floor.
  function Needed(e: Setup, h: int, level: int): int {
    Clamp(MinDelayNs(e.list, h), PeriodOf(true, h, level))
  }

  // The driver is on and delivers without delay at the level of the subscriber or faster.
  ghost predicate Served(e: Setup, w: World, h: int, x: Entry<int, int>) {
    h in w.d.subs && x in w.d.subs[h] && h in w.m ==>
      && w.m[h].driver.on && w.m[h].driver.programmed.period <= Needed(e, h, x.value)
      && w.m[h].driver.programmed.latency <= 0
  }

  lemma HealthyServes(e: Setup, w: World, h: int, x: Entry<int, int>)
    requires Inv(e, w) && Healthy(w.m)
    ensures Served(e, w, h, x)
  {
    hide SensorOk, MinDelayNs, Lookup, Folded, Best;
    if h in w.d.subs && x in w.d.subs[h] && h in w.m {
      assert SubsOk(w.d, h) && LevelOk(w.d, h) && RegisteredOk(e, w, h);
      assert Lookup(w.m[h].clients, e.conn).Some?;
      DriverServes(w.m[h], e.conn);
    }
  }

  // After every disciplined run of adds, removes and configurations, the sensor of each
  // subscription is on and at least as fast as the subscribed level needs.
  lemma {:induction false} EverySubscriberIsServed(e: Setup, m: Sensors, ops: seq<DirectOp>, h: int, x: Entry<int, int>)
    requires forall k | k in m :: m[k] == IDLE
    requires forall i | 0 <= i < |ops| :: Allowed(e, ops[i]) && Disciplined(DirectRates.Run(e, m, ops[..i]), ops[i])
    ensures Inv(e, DirectRates.Run(e, m, ops)) && Healthy(DirectRates.Run(e, m, ops).m)
    ensures Served(e, DirectRates.Run(e, m, ops), h, x)
  {
    hide Inv, Take, Healthy, Served, Disciplined, Allowed;
    EveryRunIsConsistent(e, m, ops);
    if ops == [] {
      StartHealthy(m);
    } else {
      var n := |ops| - 1;
      forall i | 0 <= i < n ensures ops[..n][..i] == ops[..i] { }
      EverySubscriberIsServed(e, m, ops[..n], h, x);
      TakeHealthy(e, DirectRates.Run(e, m, ops[..n]), ops[n]);
    }
    HealthyServes(e, DirectRates.Run(e, m, ops), h, x);
  }

  lemma StartHealthy(m: Sensors)
    requires forall h | h in m :: m[h] == IDLE
    ensures Healthy(m)
  {
    IdleBest();
  }
}
