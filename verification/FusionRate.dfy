// Fusion and arbitration together: however the virtual sensors and the other clients of the
// physical sensors are used, the driver is never programmed with less than an enabled virtual
// sensor asked for.
module FusionRate {
  import opened Basics
  import opened KeyedVector
  import opened SensorManager
  import opened Arbitration
  import opened Fusion

  // The slowest period a request may be turned into: the request, raised to both floors.
  function Limit(e: Setup, phys: Phys, period: int): int {
    Max(Max(period, Floor(e.b, phys)), MinDelayNs(e.list, HandleOf(phys)))
  }

  // How many enabled virtual sensors use the physical one.
  function Users(b: Build, infos: seq<Virtual>, phys: Phys): nat {
    if infos == [] then 0
    else
      var k := |infos| - 1;
      Users(b, infos[..k], phys) + (if infos[k].enabled && Uses(b, k, phys) then 1 else 0)
  }

  lemma {:induction false} UsersAfterUpdate(b: Build, infos: seq<Virtual>, phys: Phys, i: nat, v: Virtual)
    requires i < |infos|
    ensures Users(b, infos[i := v], phys)
         == Users(b, infos, phys)
            - (if infos[i].enabled && Uses(b, i, phys) then 1 else 0)
            + (if v.enabled && Uses(b, i, phys) then 1 else 0)
  {
    hide Uses;
    var k := |infos| - 1;
    if i < k {
      assert infos[i := v][..k] == infos[..k][i := v];
      UsersAfterUpdate(b, infos[..k], phys, i, v);
    } else {
      assert infos[i := v][..k] == infos[..k];
    }
  }

  lemma {:induction false} UserCounts(b: Build, infos: seq<Virtual>, phys: Phys, i: nat)
    requires i < |infos| && infos[i].enabled && Uses(b, i, phys)
    ensures Users(b, infos, phys) > 0
  {
    hide Uses;
    var k := |infos| - 1;
    if i < k {
      UserCounts(b, infos[..k], phys, i);
    }
  }

  lemma {:induction false} NoUsers(b: Build, infos: seq<Virtual>, phys: Phys)
    requires NoneEnabled(infos)
    ensures Users(b, infos, phys) == 0
  {
    if infos != [] {
      NoUsers(b, infos[..|infos| - 1], phys);
    }
  }

  // ---------------------------------------------------------------- the invariant

  // Everything except the three counters: the cached best is at most every enabled request.
  ghost predicate Sane(e: Setup, w: World) {
    && Shaped(w.f) && NonNegative(w.f.best)
    && NonNegativeInfos(w.f.infos) && BelowEnabled(w.f.best, w.f.infos)
    && (forall h | h in w.m :: SensorOk(w.m[h]))
  }

  // While it is counted as used, the physical sensor holds a request of this connection that
  // is good enough for each enabled user.
  ghost predicate Covered(e: Setup, w: World, phys: Phys)
    requires Shaped(w.f)
  {
    HandleOf(phys) in w.m && w.f.counts[phys] > 0 ==>
      GoodEnough(e, w.f, phys, Lookup(w.m[HandleOf(phys)].clients, e.conn))
  }

  ghost predicate GoodEnough(e: Setup, f: State, phys: Phys, r: Option<Params>)
    requires Shaped(f)
  {
    r.Some? &&
    forall k | 0 <= k < SENSORS && f.infos[k].enabled && Uses(e.b, k, phys) ::
      r.value.period <= Limit(e, phys, f.infos[k].period) && r.value.latency <= f.infos[k].latency
  }

  // The connection is registered with the physical sensor exactly while it is counted as used.
  ghost predicate Known(e: Setup, w: World, phys: Phys)
    requires Shaped(w.f)
  {
    HandleOf(phys) in w.m ==> (Lookup(w.m[HandleOf(phys)].clients, e.conn).Some? <==> w.f.counts[phys] > 0)
  }

  ghost predicate PhysOk(e: Setup, w: World, phys: Phys)
    requires Shaped(w.f)
  {
    w.f.counts[phys] == Users(e.b, w.f.infos, phys) && Covered(e, w, phys) && Known(e, w, phys)
  }

  ghost predicate Inv(e: Setup, w: World) {
    Shaped(w.f) && Sane(e, w) && forall phys :: PhysOk(e, w, phys)
  }

  // w' differs from w at most in what belongs to one physical sensor.
  ghost predicate OnlyPhys(w: World, w': World, phys: Phys) {
    && Shaped(w.f) && Shaped(w'.f) && w'.f.infos == w.f.infos && w'.f.best == w.f.best
    && w'.m.Keys == w.m.Keys
    && forall q | q != phys ::
         w'.f.counts[q] == w.f.counts[q]
         && (HandleOf(q) in w.m ==> w'.m[HandleOf(q)] == w.m[HandleOf(q)])
  }

  lemma OthersKept(e: Setup, w: World, w': World, phys: Phys, q: Phys)
    requires OnlyPhys(w, w', phys) && q != phys && PhysOk(e, w, q)
    ensures PhysOk(e, w', q)
  {
    hide Users, Limit, Uses, Lookup;
  }

  // The best request, sent, covers every user.
  lemma SendCovers(e: Setup, w: World, phys: Phys, calls: AllCalls)
    requires Sane(e, w) && CallsOf(calls, phys).batch >= 0
    ensures var w' := Send(e, w, phys, calls);
      && Sane(e, w') && Covered(e, w', phys) && OnlyPhys(w, w', phys) && w'.f == w.f
      && (w.f.counts[phys] > 0 ==> Known(e, w', phys))
  {
    hide Lookup, Batched, SensorOk, Uses;
    var h := HandleOf(phys);
    if h in w.m {
      var p := Request(e, phys, w.f.best);
      BatchedOk(w.m[h], e.conn, p, CallsOf(calls, phys).batch);
      RequestWithinLimit(e, w, phys);
    }
  }

  lemma RequestWithinLimit(e: Setup, w: World, phys: Phys)
    requires Sane(e, w)
    ensures NonNegative(Request(e, phys, w.f.best))
    ensures forall k | 0 <= k < SENSORS && w.f.infos[k].enabled ::
      Request(e, phys, w.f.best).period <= Limit(e, phys, w.f.infos[k].period)
      && Request(e, phys, w.f.best).latency <= w.f.infos[k].latency
  {
    hide MinDelayNs, SensorOk;
  }

  lemma TurnKeeps(e: Setup, w: World, phys: Phys, on: bool, calls: AllCalls)
    requires Sane(e, w) && CallsOf(calls, phys).rebatch >= 0 && CallsOf(calls, phys).activate == 0
    ensures var w' := Turn(e, w, phys, on, calls);
      && Sane(e, w') && OnlyPhys(w, w', phys) && w'.f == w.f
      && (on && Covered(e, w, phys) ==> Covered(e, w', phys)) && (on && Known(e, w, phys) ==> Known(e, w', phys))
      && (!on && w.f.counts[phys] == 0 ==> Known(e, w', phys))
  {
    hide Lookup, Activated, SensorOk, Uses, Limit;
    var h := HandleOf(phys);
    if h in w.m {
      ActivatedOk(w.m[h], e.conn, on, CallsOf(calls, phys).rebatch, CallsOf(calls, phys).activate);
    }
  }

  // The counter of a physical sensor lags behind the enabled users by d, if i uses it.
  ghost predicate Pending(e: Setup, w: World, i: nat, phys: Phys, d: int)
    requires Shaped(w.f)
  {
    if Uses(e.b, i, phys) then
      w.f.counts[phys] + d == Users(e.b, w.f.infos, phys) && w.f.counts[phys] >= 0 && Known(e, w, phys)
    else PhysOk(e, w, phys)
  }

  predicate CallsSucceed(calls: AllCalls) {
    && calls.gyro.batch >= 0 && calls.gyro.rebatch >= 0 && calls.gyro.activate == 0
    && calls.acc.batch >= 0 && calls.acc.rebatch >= 0 && calls.acc.activate == 0
    && calls.mag.batch >= 0 && calls.mag.rebatch >= 0 && calls.mag.activate == 0
  }

  // ---------------------------------------------------------------- the driver

  // What enabling, disabling and batching do to a physical sensor are steps of a client.
  function EnableStep(e: Setup, w: World, phys: Phys, calls: AllCalls): ClientStep
    requires Shaped(w.f)
  {
    var c, p := CallsOf(calls, phys), Request(e, phys, w.f.best);
    if w.f.counts[phys] == 0 then Attach(e.conn, p, c.batch, c.activate) else Change(e.conn, p, c.batch)
  }

  function DisableStep(e: Setup, w: World, phys: Phys, calls: AllCalls): ClientStep
    requires Shaped(w.f)
  {
    var c, p := CallsOf(calls, phys), Request(e, phys, w.f.best);
    if w.f.counts[phys] == 1 then Detach(e.conn, c.rebatch, c.activate) else Change(e.conn, p, c.batch)
  }

  lemma EnableIsStep(e: Setup, w: World, i: nat, phys: Phys, calls: AllCalls)
    requires Shaped(w.f) && Uses(e.b, i, phys)
    ensures EnablePhys(e, w, i, phys, calls).m == SteppedAt(w.m, HandleOf(phys), EnableStep(e, w, phys, calls))
  {
    hide Batched, Request, Uses;
  }

  lemma DisableIsStep(e: Setup, w: World, i: nat, phys: Phys, calls: AllCalls)
    requires Shaped(w.f) && Uses(e.b, i, phys) && w.f.counts[phys] > 0
    ensures DisablePhys(e, w, i, phys, calls).m == SteppedAt(w.m, HandleOf(phys), DisableStep(e, w, phys, calls))
  {
    hide Batched, Activated, Request, Uses;
  }

  // After enabling, the driver is on if it was, or if nobody was registered before.
  ghost predicate JoinsDriver(b: Build, m: Sensors, m': Sensors, i: nat, phys: Phys) {
    Uses(b, i, phys) && HandleOf(phys) in m ==>
      HandleOf(phys) in m' &&
      (m'[HandleOf(phys)].driver.on <==> m[HandleOf(phys)].clients == [] || m[HandleOf(phys)].driver.on)
  }

  lemma EnablePhysDriver(e: Setup, w: World, i: nat, phys: Phys, calls: AllCalls)
    requires Sane(e, w) && Pending(e, w, i, phys, 1) && CallsSucceed(calls)
    ensures var w' := EnablePhys(e, w, i, phys, calls);
      JoinsDriver(e.b, w.m, w'.m, i, phys) && (AllSynced(w.m) ==> AllSynced(w'.m))
  {
    hide Uses, Users, Limit, Lookup, Request, Stepped;
    var h := HandleOf(phys);
    if Uses(e.b, i, phys) {
      EnableIsStep(e, w, i, phys, calls);
      var step := EnableStep(e, w, phys, calls);
      if AllSynced(w.m) {
        StepKeepsSynced(w.m, h, step);
      }
      if h in w.m {
        StepJoins(w.m[h], step);
      }
    }
  }

  lemma StepJoins(s: Sensor, step: ClientStep)
    requires Folded(s) && InOrder(s, step)
    requires (step.Attach? && step.batchResult >= 0 && step.result == 0) || (step.Change? && step.batchResult >= 0)
    ensures Stepped(s, step).driver.on <==> s.clients == [] || s.driver.on
  {
    hide Best, Add, Remove, HasKey, Sorted;
    KeysAfterAdd(s.clients, step.c, step.p);
    NoKeyInNothing(step.c);
  }

  lemma DisablePhysDriver(e: Setup, w: World, i: nat, phys: Phys, calls: AllCalls)
    requires Sane(e, w) && Pending(e, w, i, phys, -1) && CallsSucceed(calls)
    ensures AllSynced(w.m) ==> AllSynced(DisablePhys(e, w, i, phys, calls).m)
  {
    hide Uses, Users, Limit, Lookup, Request, Stepped;
    if Uses(e.b, i, phys) && AllSynced(w.m) {
      DisableIsStep(e, w, i, phys, calls);
      StepKeepsSynced(w.m, HandleOf(phys), DisableStep(e, w, phys, calls));
    }
  }

  lemma BatchPhysDriver(e: Setup, w: World, i: nat, phys: Phys, calls: AllCalls)
    requires Sane(e, w) && Pending(e, w, i, phys, 0) && CallsSucceed(calls)
    ensures AllSynced(w.m) ==> AllSynced(BatchPhys(e, w, i, phys, calls).m)
  {
    hide Uses, Users, Limit, Lookup, Request, Batched;
    if Uses(e.b, i, phys) && AllSynced(w.m) && w.f.counts[phys] != 0 {
      var step := Change(e.conn, Request(e, phys, w.f.best), CallsOf(calls, phys).batch);
      StepKeepsSynced(w.m, HandleOf(phys), step);
    }
  }

  // ---------------------------------------------------------------- the registration

  // While the physical sensor is used, its registration is the one it had or stands for the best
  // request there is now.
  ghost predicate Registers(e: Setup, m: Sensors, w': World, phys: Phys)
    requires Shaped(w'.f)
  {
    HandleOf(phys) in m ==>
      && HandleOf(phys) in w'.m
      && (w'.f.counts[phys] > 0 ==>
            var now := Lookup(w'.m[HandleOf(phys)].clients, e.conn);
            now == Lookup(m[HandleOf(phys)].clients, e.conn) || now == Some(Request(e, phys, w'.f.best)))
  }

  lemma SendRegisters(e: Setup, w: World, phys: Phys, calls: AllCalls)
    requires Sane(e, w) && CallsOf(calls, phys).batch >= 0
    ensures var w' := Send(e, w, phys, calls);
      HandleOf(phys) in w.m ==>
        HandleOf(phys) in w'.m && Lookup(w'.m[HandleOf(phys)].clients, e.conn) == Some(Request(e, phys, w.f.best))
  {
    hide Lookup, Batched, SensorOk, Request;
    var h := HandleOf(phys);
    if h in w.m {
      RequestWithinLimit(e, w, phys);
      BatchedOk(w.m[h], e.conn, Request(e, phys, w.f.best), CallsOf(calls, phys).batch);
    }
  }

  lemma EnablePhysRegisters(e: Setup, w: World, i: nat, phys: Phys, calls: AllCalls)
    requires Sane(e, w) && CallsSucceed(calls)
    ensures Registers(e, w.m, EnablePhys(e, w, i, phys, calls), phys)
  {
    hide Lookup, Uses, Batched, SensorOk, Request, CallsSucceed;
    CallsSucceedOn(calls, phys);
    SendRegisters(e, w, phys, calls);
    SendCovers(e, w, phys, calls);
    var sent := Send(e, w, phys, calls);
    var c := CallsOf(calls, phys);
    if HandleOf(phys) in w.m {
      SaneSensor(e, sent, phys);
      ActivatedOk(sent.m[HandleOf(phys)], e.conn, true, c.rebatch, c.activate);
    }
  }

  lemma SaneSensor(e: Setup, w: World, phys: Phys)
    requires Sane(e, w) && HandleOf(phys) in w.m
    ensures SensorOk(w.m[HandleOf(phys)])
  {
  }

  lemma DisablePhysRegisters(e: Setup, w: World, i: nat, phys: Phys, calls: AllCalls)
    requires Sane(e, w) && CallsSucceed(calls)
    ensures Registers(e, w.m, DisablePhys(e, w, i, phys, calls), phys)
  {
    hide Lookup, Uses, Batched, Activated, SensorOk, Request, CallsSucceed;
    CallsSucceedOn(calls, phys);
    SendRegisters(e, w, phys, calls);
  }

  lemma BatchPhysRegisters(e: Setup, w: World, i: nat, phys: Phys, calls: AllCalls)
    requires Sane(e, w) && CallsSucceed(calls)
    ensures Registers(e, w.m, BatchPhys(e, w, i, phys, calls), phys)
  {
    hide Lookup, Uses, Batched, SensorOk, Request, CallsSucceed;
    CallsSucceedOn(calls, phys);
    SendRegisters(e, w, phys, calls);
  }

  // The three physical sensors are dealt with one after another.
  lemma ThreeRegister(e: Setup, w0: World, w1: World, w2: World, w3: World)
    requires OnlyPhys(w0, w1, Gyro) && OnlyPhys(w1, w2, Acc) && OnlyPhys(w2, w3, Mag)
    requires Registers(e, w0.m, w1, Gyro) && Registers(e, w1.m, w2, Acc) && Registers(e, w2.m, w3, Mag)
    ensures forall phys :: Registers(e, w0.m, w3, phys)
  {
    hide Lookup, Request;
    forall phys ensures Registers(e, w0.m, w3, phys) {
      match phys case Gyro => case Acc => case Mag =>
    }
  }

  // ---------------------------------------------------------------- the operations

  lemma CallsSucceedOn(calls: AllCalls, phys: Phys)
    requires CallsSucceed(calls)
    ensures var c := CallsOf(calls, phys); c.batch >= 0 && c.rebatch >= 0 && c.activate == 0
  {
  }

  lemma EnablePhysOk(e: Setup, w: World, i: nat, phys: Phys, calls: AllCalls)
    requires Sane(e, w) && Pending(e, w, i, phys, 1) && CallsSucceed(calls)
    ensures var w' := EnablePhys(e, w, i, phys, calls);
      && Sane(e, w') && OnlyPhys(w, w', phys) && PhysOk(e, w', phys)
      && (AllSynced(w.m) ==> AllSynced(w'.m)) && JoinsDriver(e.b, w.m, w'.m, i, phys)
  {
    hide Lookup, Uses, Limit, Users, Send, Turn, SensorOk, HandleOf, AllSynced, JoinsDriver, CallsSucceed, GoodEnough;
    EnablePhysDriver(e, w, i, phys, calls);
    CallsSucceedOn(calls, phys);
    if Uses(e.b, i, phys) {
      SendCovers(e, SetCount(w, phys, w.f.counts[phys] + 1), phys, calls);
      SendCountIndependent(e, w, phys, calls, w.f.counts[phys] + 1);
      var sent := SetCount(Send(e, w, phys, calls), phys, w.f.counts[phys] + 1);
      if w.f.counts[phys] == 0 {
        TurnKeeps(e, sent, phys, true, calls);
        TurnCountIndependent(e, Send(e, w, phys, calls), phys, true, calls, w.f.counts[phys] + 1);
      }
    }
  }

  lemma SendCountIndependent(e: Setup, w: World, phys: Phys, calls: AllCalls, n: int)
    ensures Send(e, SetCount(w, phys, n), phys, calls) == SetCount(Send(e, w, phys, calls), phys, n)
  {
    hide BatchAt, Request;
  }

  lemma TurnCountIndependent(e: Setup, w: World, phys: Phys, on: bool, calls: AllCalls, n: int)
    ensures Turn(e, SetCount(w, phys, n), phys, on, calls) == SetCount(Turn(e, w, phys, on, calls), phys, n)
  {
    hide ActivateAt;
  }

  lemma DisablePhysOk(e: Setup, w: World, i: nat, phys: Phys, calls: AllCalls)
    requires Sane(e, w) && Pending(e, w, i, phys, -1) && CallsSucceed(calls)
    ensures var w' := DisablePhys(e, w, i, phys, calls);
      && Sane(e, w') && OnlyPhys(w, w', phys) && PhysOk(e, w', phys)
      && (AllSynced(w.m) ==> AllSynced(w'.m))
  {
    hide Lookup, Uses, Limit, Users, Send, Turn, SensorOk, HandleOf, AllSynced, CallsSucceed, GoodEnough;
    CallsSucceedOn(calls, phys);
    DisablePhysDriver(e, w, i, phys, calls);
    if Uses(e.b, i, phys) {
      var n := w.f.counts[phys] - 1;
      SendCovers(e, SetCount(w, phys, n), phys, calls);
      SendCountIndependent(e, w, phys, calls, n);
      TurnKeeps(e, SetCount(w, phys, n), phys, false, calls);
      TurnCountIndependent(e, w, phys, false, calls, n);
    }
  }

  lemma BatchPhysOk(e: Setup, w: World, i: nat, phys: Phys, calls: AllCalls)
    requires Sane(e, w) && Pending(e, w, i, phys, 0) && CallsSucceed(calls)
    ensures var w' := BatchPhys(e, w, i, phys, calls);
      && Sane(e, w') && OnlyPhys(w, w', phys) && PhysOk(e, w', phys)
      && (AllSynced(w.m) ==> AllSynced(w'.m))
  {
    hide Lookup, Uses, Limit, Users, Send, Turn, SensorOk, HandleOf, AllSynced, JoinsDriver;
    BatchPhysDriver(e, w, i, phys, calls);
    if Uses(e.b, i, phys) && w.f.counts[phys] != 0 {
      SendCovers(e, w, phys, calls);
    }
  }

  lemma PendingKept(e: Setup, w: World, w': World, phys: Phys, i: nat, q: Phys, d: int)
    requires OnlyPhys(w, w', phys) && q != phys && Pending(e, w, i, q, d)
    ensures Pending(e, w', i, q, d)
  {
    hide Users, Covered, Uses, Lookup;
    if !Uses(e.b, i, q) {
      OthersKept(e, w, w', phys, q);
    }
  }

  // ---------------------------------------------------------------- the cached best

  ghost predicate BelowEnabled(p: Params, infos: seq<Virtual>) {
    forall k | 0 <= k < |infos| && infos[k].enabled ::
      p.period <= infos[k].period && p.latency <= infos[k].latency
  }

  ghost predicate NonNegativeInfos(infos: seq<Virtual>) {
    forall k | 0 <= k < |infos| :: infos[k].period >= 0 && infos[k].latency >= 0
  }

  lemma {:induction false} LowestIsLow(infos: seq<Virtual>, best: Params)
    ensures Lowest(infos, best).period <= best.period && Lowest(infos, best).latency <= best.latency
    ensures BelowEnabled(Lowest(infos, best), infos)
    ensures NonNegative(best) && NonNegativeInfos(infos) ==> NonNegative(Lowest(infos, best))
  {
    if infos != [] {
      LowestIsLow(infos[..|infos| - 1], best);
    }
  }

  // Between two resets the cached best only falls.
  lemma BestNeverRises(f: State, i: nat, v: Virtual)
    requires Shaped(f) && i < SENSORS && NonNegative(f.best)
    ensures Update(f, i, v).best.period <= f.best.period
    ensures Update(f, i, v).best.latency <= f.best.latency
  {
    LowestIsLow(f.infos[i := v], f.best);
  }

  lemma UpdateSane(e: Setup, w: World, i: nat, v: Virtual)
    requires Sane(e, w) && i < SENSORS && v.period >= 0 && v.latency >= 0
    ensures Sane(e, w.(f := Update(w.f, i, v)))
  {
    hide SensorOk;
    LowestIsLow(w.f.infos[i := v], w.f.best);
  }

  // Changing entry i leaves the physical sensors it does not use as they were, and moves the
  // number of users of the others by one, or not at all.
  lemma UpdatePending(e: Setup, w: World, i: nat, v: Virtual, phys: Phys)
    requires Inv(e, w) && i < SENSORS
    ensures Pending(e, w.(f := Update(w.f, i, v)), i, phys,
                    (if v.enabled then 1 else 0) - (if w.f.infos[i].enabled then 1 else 0))
  {
    hide Limit, Uses, Lookup, Users, Sane, Select;
    assert PhysOk(e, w, phys);
    UsersAfterUpdate(e.b, w.f.infos, phys, i, v);
  }

  // ---------------------------------------------------------------- whole runs

  datatype FusionOp =
    | EnableOp(i: nat, calls: AllCalls)
    | DisableOp(i: nat, calls: AllCalls)
    | BatchOp(i: nat, p: Params, calls: AllCalls)
    | OtherBatch(c: Conn, h: int, p: Params, result: int)
    | OtherActivate(c: Conn, h: int, enable: bool, batchResult: int, result: int)
    | OtherStep(h: int, step: ClientStep)

  // Enable only what is disabled and disable only what is enabled; requests are
  // non-negative; the driver accepts the calls. Other connections do as they like, except
  // that the driver accepts their batch calls too, or the first one leaves them unregistered.
  ghost predicate Allowed(e: Setup, w: World, op: FusionOp) {
    Shaped(w.f) &&
    match op
    case EnableOp(i, calls) => i < SENSORS && !w.f.infos[i].enabled && CallsSucceed(calls)
    case DisableOp(i, calls) => i < SENSORS && w.f.infos[i].enabled && CallsSucceed(calls)
    case BatchOp(i, p, calls) => i < SENSORS && NonNegative(p) && CallsSucceed(calls)
    case OtherBatch(c, _, p, result) => c != e.conn && NonNegative(p) && result >= 0
    case OtherActivate(c, _, _, batchResult, _) => c != e.conn && batchResult >= 0
    case OtherStep(h, step) => step.c != e.conn && (h in w.m ==> InOrder(w.m[h], step)) && StepAccepted(step)
  }

  function Take(e: Setup, w: World, op: FusionOp): World
    requires Allowed(e, w, op)
  {
    match op
    case EnableOp(i, calls) => Enabled(e, w, i, calls)
    case DisableOp(i, calls) => Disabled(e, w, i, calls)
    case BatchOp(i, p, calls) => Rebatched(e, w, i, p, calls)
    case OtherBatch(c, h, p, result) => w.(m := BatchAt(w.m, c, h, p, result))
    case OtherActivate(c, h, enable, batchResult, result) =>
      w.(m := ActivateAt(w.m, c, h, enable, batchResult, result))
    case OtherStep(h, step) => w.(m := SteppedAt(w.m, h, step))
  }

  lemma EnabledOk(e: Setup, w: World, i: nat, calls: AllCalls)
    requires Inv(e, w) && i < SENSORS && !w.f.infos[i].enabled && CallsSucceed(calls)
    ensures var w' := Enabled(e, w, i, calls);
      && Inv(e, w') && (AllSynced(w.m) ==> AllSynced(w'.m))
      && (forall phys :: JoinsDriver(e.b, w.m, w'.m, i, phys))
      && forall phys :: Registers(e, w.m, w', phys)
  {
    hide EnablePhys, Sane, PhysOk, Pending, OnlyPhys, Update, CallsSucceed, AllSynced, JoinsDriver, Registers;
    var v := w.f.infos[i].(enabled := true);
    SaneParts(e, w, i);
    var w0 := w.(f := Update(w.f, i, v));
    UpdateSane(e, w, i, v);
    UpdateShaped(w.f, i, v);
    UpdatePending(e, w, i, v, Gyro);
    UpdatePending(e, w, i, v, Acc);
    UpdatePending(e, w, i, v, Mag);
    var w1 := EnablePhys(e, w0, i, Gyro, calls);
    EnablePhysOk(e, w0, i, Gyro, calls);
    EnablePhysRegisters(e, w0, i, Gyro, calls);
    PendingKept(e, w0, w1, Gyro, i, Acc, 1);
    PendingKept(e, w0, w1, Gyro, i, Mag, 1);
    var w2 := EnablePhys(e, w1, i, Acc, calls);
    EnablePhysOk(e, w1, i, Acc, calls);
    EnablePhysRegisters(e, w1, i, Acc, calls);
    OthersKept(e, w1, w2, Acc, Gyro);
    PendingKept(e, w1, w2, Acc, i, Mag, 1);
    var w3 := EnablePhys(e, w2, i, Mag, calls);
    EnablePhysOk(e, w2, i, Mag, calls);
    EnablePhysRegisters(e, w2, i, Mag, calls);
    OthersKept(e, w2, w3, Mag, Gyro);
    OthersKept(e, w2, w3, Mag, Acc);
    AllThree(e, w3);
    ThreeRegister(e, w0, w1, w2, w3);
    JoinsBefore(e.b, w0, w1, w2, i, Gyro, Acc);
    JoinsBefore(e.b, w0, w2, w3, i, Gyro, Mag);
    JoinsAfter(e.b, w0, w1, w2, i, Acc, Gyro);
    JoinsBefore(e.b, w0, w2, w3, i, Acc, Mag);
    JoinsAfter(e.b, w1, w2, w3, i, Mag, Acc);
    JoinsAfter(e.b, w0, w1, w3, i, Mag, Gyro);
    forall phys ensures JoinsDriver(e.b, w.m, w3.m, i, phys) {
      match phys case Gyro => case Acc => case Mag =>
    }
  }

  // Touching another physical sensor afterwards or beforehand makes no difference.
  lemma JoinsBefore(b: Build, w: World, w1: World, w2: World, i: nat, phys: Phys, q: Phys)
    requires JoinsDriver(b, w.m, w1.m, i, phys) && OnlyPhys(w1, w2, q) && q != phys
    ensures JoinsDriver(b, w.m, w2.m, i, phys)
  {
    hide Uses;
  }

  lemma JoinsAfter(b: Build, w: World, w1: World, w2: World, i: nat, phys: Phys, q: Phys)
    requires OnlyPhys(w, w1, q) && q != phys && JoinsDriver(b, w1.m, w2.m, i, phys)
    ensures JoinsDriver(b, w.m, w2.m, i, phys)
  {
    hide Uses;
  }

  lemma AllThree(e: Setup, w: World)
    requires Sane(e, w) && PhysOk(e, w, Gyro) && PhysOk(e, w, Acc) && PhysOk(e, w, Mag)
    ensures Inv(e, w)
  {
    hide PhysOk;
    forall phys ensures PhysOk(e, w, phys) {
      match phys case Gyro => case Acc => case Mag =>
    }
  }

  lemma SaneParts(e: Setup, w: World, i: nat)
    requires Sane(e, w) && i < SENSORS
    ensures w.f.infos[i].period >= 0 && w.f.infos[i].latency >= 0
  {
  }

  lemma UpdateShaped(f: State, i: nat, v: Virtual)
    requires Shaped(f) && i < SENSORS
    ensures Shaped(Update(f, i, v))
  {
  }

  lemma DisabledOk(e: Setup, w: World, i: nat, calls: AllCalls)
    requires Inv(e, w) && i < SENSORS && w.f.infos[i].enabled && CallsSucceed(calls)
    ensures Inv(e, Disabled(e, w, i, calls))
    ensures AllSynced(w.m) ==> AllSynced(Disabled(e, w, i, calls).m)
    ensures forall phys :: Registers(e, w.m, Disabled(e, w, i, calls), phys)
  {
    hide DisablePhys, Sane, PhysOk, Pending, OnlyPhys, Update, CallsSucceed, AllSynced, Registers;
    var w0 := w.(f := Update(w.f, i, OFF));
    UpdateSane(e, w, i, OFF);
    UpdateShaped(w.f, i, OFF);
    UpdatePending(e, w, i, OFF, Gyro);
    UpdatePending(e, w, i, OFF, Acc);
    UpdatePending(e, w, i, OFF, Mag);
    var w1 := DisablePhys(e, w0, i, Gyro, calls);
    DisablePhysOk(e, w0, i, Gyro, calls);
    DisablePhysRegisters(e, w0, i, Gyro, calls);
    PendingKept(e, w0, w1, Gyro, i, Acc, -1);
    PendingKept(e, w0, w1, Gyro, i, Mag, -1);
    var w2 := DisablePhys(e, w1, i, Acc, calls);
    DisablePhysOk(e, w1, i, Acc, calls);
    DisablePhysRegisters(e, w1, i, Acc, calls);
    OthersKept(e, w1, w2, Acc, Gyro);
    PendingKept(e, w1, w2, Acc, i, Mag, -1);
    var w3 := DisablePhys(e, w2, i, Mag, calls);
    DisablePhysOk(e, w2, i, Mag, calls);
    DisablePhysRegisters(e, w2, i, Mag, calls);
    OthersKept(e, w2, w3, Mag, Gyro);
    OthersKept(e, w2, w3, Mag, Acc);
    AllThree(e, w3);
    ThreeRegister(e, w0, w1, w2, w3);
    if NoneEnabled(w3.f.infos) {
      ResetKeeps(e, w3);
      NobodyRegisters(e, w.m, w3);
    }
  }

  lemma NobodyRegisters(e: Setup, m: Sensors, w: World)
    requires Inv(e, w) && NoneEnabled(w.f.infos) && forall phys :: Registers(e, m, w, phys)
    ensures forall phys :: Registers(e, m, w.(f := w.f.(best := Params(MAX_PERIOD, MAX_LATENCY))), phys)
  {
    hide Users, Sane, Lookup, Request;
    var w' := w.(f := w.f.(best := Params(MAX_PERIOD, MAX_LATENCY)));
    forall phys ensures Registers(e, m, w', phys) {
      assert Registers(e, m, w, phys) && PhysOk(e, w, phys);
      NoUsers(e.b, w.f.infos, phys);
    }
  }

  lemma ResetKeeps(e: Setup, w: World)
    requires Inv(e, w) && NoneEnabled(w.f.infos)
    ensures Inv(e, w.(f := w.f.(best := Params(MAX_PERIOD, MAX_LATENCY))))
  {
    hide Users, SensorOk, Limit, Uses, Lookup;
    var w' := w.(f := w.f.(best := Params(MAX_PERIOD, MAX_LATENCY)));
    forall phys ensures PhysOk(e, w', phys) {
      assert PhysOk(e, w, phys);
    }
  }

  lemma RebatchedOk(e: Setup, w: World, i: nat, p: Params, calls: AllCalls)
    requires Inv(e, w) && i < SENSORS && NonNegative(p) && CallsSucceed(calls)
    ensures Inv(e, Rebatched(e, w, i, p, calls))
    ensures AllSynced(w.m) ==> AllSynced(Rebatched(e, w, i, p, calls).m)
    ensures forall phys :: Registers(e, w.m, Rebatched(e, w, i, p, calls), phys)
  {
    hide BatchPhys, Sane, PhysOk, Pending, OnlyPhys, Update, CallsSucceed, AllSynced, Registers;
    var v := Virtual(w.f.infos[i].enabled, p.period, p.latency);
    var w0 := w.(f := Update(w.f, i, v));
    UpdateSane(e, w, i, v);
    UpdateShaped(w.f, i, v);
    UpdatePending(e, w, i, v, Gyro);
    UpdatePending(e, w, i, v, Acc);
    UpdatePending(e, w, i, v, Mag);
    var w1 := BatchPhys(e, w0, i, Gyro, calls);
    BatchPhysOk(e, w0, i, Gyro, calls);
    BatchPhysRegisters(e, w0, i, Gyro, calls);
    PendingKept(e, w0, w1, Gyro, i, Acc, 0);
    PendingKept(e, w0, w1, Gyro, i, Mag, 0);
    var w2 := BatchPhys(e, w1, i, Acc, calls);
    BatchPhysOk(e, w1, i, Acc, calls);
    BatchPhysRegisters(e, w1, i, Acc, calls);
    OthersKept(e, w1, w2, Acc, Gyro);
    PendingKept(e, w1, w2, Acc, i, Mag, 0);
    var w3 := BatchPhys(e, w2, i, Mag, calls);
    BatchPhysOk(e, w2, i, Mag, calls);
    BatchPhysRegisters(e, w2, i, Mag, calls);
    OthersKept(e, w2, w3, Mag, Gyro);
    OthersKept(e, w2, w3, Mag, Acc);
    AllThree(e, w3);
    ThreeRegister(e, w0, w1, w2, w3);
  }

  lemma OtherOk(e: Setup, w: World, op: FusionOp)
    requires Inv(e, w) && Allowed(e, w, op) && (op.OtherBatch? || op.OtherActivate? || op.OtherStep?)
    ensures Inv(e, Take(e, w, op))
  {
    hide Batched, Activated, SensorOk, Users, Limit, Uses, Lookup, InOrder, StepAccepted, Stepped;
    var w' := Take(e, w, op);
    if op.h in w.m {
      match op {
        case OtherBatch(c, h, p, result) => BatchedOk(w.m[h], c, p, result);
        case OtherActivate(c, h, enable, batchResult, result) => ActivatedOk(w.m[h], c, enable, batchResult, result);
        case OtherStep(h, step) => StepOk(w.m[h], step);
      }
    }
    forall phys ensures PhysOk(e, w', phys) {
      assert PhysOk(e, w, phys);
    }
  }

  lemma TakeOk(e: Setup, w: World, op: FusionOp)
    requires Inv(e, w) && Allowed(e, w, op)
    ensures Inv(e, Take(e, w, op))
  {
    match op {
      case EnableOp(i, calls) => EnabledOk(e, w, i, calls);
      case DisableOp(i, calls) => DisabledOk(e, w, i, calls);
      case BatchOp(i, p, calls) => RebatchedOk(e, w, i, p, calls);
      case OtherBatch(_, _, _, _) => OtherOk(e, w, op);
      case OtherActivate(_, _, _, _, _) => OtherOk(e, w, op);
      case OtherStep(_, _) => OtherOk(e, w, op);
    }
  }

  lemma StartSane(e: Setup, m: Sensors)
    requires forall h | h in m :: m[h] == IDLE
    ensures Sane(e, World(START, m))
  {
    IdleBest();
    StartShaped();
    hide Best;
    assert SensorOk(IDLE);
    hide SensorOk;
  }

  lemma StartOk(e: Setup, m: Sensors)
    requires forall h | h in m :: m[h] == IDLE
    ensures Inv(e, World(START, m))
  {
    StartShaped();
    StartSane(e, m);
    NoUsers(e.b, START.infos, Gyro);
    NoUsers(e.b, START.infos, Acc);
    NoUsers(e.b, START.infos, Mag);
    hide Users, Lookup, Limit, Uses;
    AllThree(e, World(START, m));
  }

  ghost predicate Starts(w: World) {
    w.f == START && forall h | h in w.m :: w.m[h] == IDLE
  }

  ghost predicate IsStep(e: Setup, w: World, op: FusionOp, w': World) {
    Allowed(e, w, op) && w' == Take(e, w, op)
  }

  // The worlds a run passes through: each one follows from the one before by an allowed step.
  ghost predicate IsRun(e: Setup, worlds: seq<World>, ops: seq<FusionOp>) {
    && |worlds| == |ops| + 1 && Starts(worlds[0])
    && forall i | 0 <= i < |ops| :: IsStep(e, worlds[i], ops[i], worlds[i + 1])
  }

  // No slower than asked, up to the floors, and no later than asked.
  ghost predicate RateProgrammed(e: Setup, w: World, phys: Phys, k: nat)
    requires Shaped(w.f) && k < SENSORS
  {
    w.f.infos[k].enabled && Uses(e.b, k, phys) && HandleOf(phys) in w.m ==>
      && w.m[HandleOf(phys)].driver.programmed.period <= Limit(e, phys, w.f.infos[k].period)
      && w.m[HandleOf(phys)].driver.programmed.latency <= w.f.infos[k].latency
  }

  lemma InvPrograms(e: Setup, w: World, phys: Phys, k: nat)
    requires Inv(e, w) && k < SENSORS
    ensures RateProgrammed(e, w, phys, k)
  {
    hide Users, Limit, Uses, Lookup, SensorOk;
    assert PhysOk(e, w, phys);
    if w.f.infos[k].enabled && Uses(e.b, k, phys) && HandleOf(phys) in w.m {
      UserCounts(e.b, w.f.infos, phys, k);
      DriverServes(w.m[HandleOf(phys)], e.conn);
    }
  }

  // In every world of every run each counter is the number of enabled users, and the driver is
  // programmed with the rate of every enabled virtual sensor or a faster one.
  lemma {:induction false} EveryRequestIsProgrammed(e: Setup, worlds: seq<World>, ops: seq<FusionOp>,
      i: nat, phys: Phys, k: nat)
    requires IsRun(e, worlds, ops) && i < |worlds| && k < SENSORS
    ensures Inv(e, worlds[i])
    ensures worlds[i].f.counts[phys] == Users(e.b, worlds[i].f.infos, phys)
    ensures RateProgrammed(e, worlds[i], phys, k)
  {
    hide Take, Allowed, RateProgrammed;
    if i == 0 {
      StartOk(e, worlds[0].m);
    } else {
      EveryRequestIsProgrammed(e, worlds, ops, i - 1, phys, k);
      assert IsStep(e, worlds[i - 1], ops[i - 1], worlds[i - 1 + 1]);
      TakeOk(e, worlds[i - 1], ops[i - 1]);
    }
    InvPrograms(e, worlds[i], phys, k);
    assert PhysOk(e, worlds[i], phys);
  }
}
