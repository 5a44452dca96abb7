// That the fusion sensor asks for no more than its users do: what it sends for a physical sensor
// is a request that some virtual sensor made since all of them were last off.
module FusionExact {
  import opened Basics
  import opened KeyedVector
  import opened SensorManager
  import opened Arbitration
  import opened Fusion
  import opened FusionRate

  // ---------------------------------------------------------------- tables

  // The handles of the virtual sensors, by index.
  const VIRTUAL: seq<int> := [2, 14, 19, 10, 9, 8, 34, 15, 13, 57, 70]

  lemma IndexIsPlace(handle: int)
    ensures IndexOf(handle) >= 0 ==> VIRTUAL[IndexOf(handle)] == handle
    ensures IndexOf(handle) == -1 <==> handle !in VIRTUAL
    ensures forall i | 0 <= i < SENSORS :: IndexOf(VIRTUAL[i]) == i
  {
  }

  // Each uncalibrated sensor (6, 7 and 8) uses its own physical sensor alone. Of the others all use
  // the accelerometer; with the nine-axis algorithm all but the geomagnetic one (2) use the
  // gyroscope and all but the game rotation vector (1) the magnetometer, without it all the
  // magnetometer and none the gyroscope.
  lemma UsesTable(b: Build, i: nat)
    requires i < SENSORS
    ensures var used := set phys | phys in {Gyro, Acc, Mag} && Uses(b, i, phys);
      used == if i == 6 then {Acc} else if i == 7 then {Gyro} else if i == 8 then {Mag}
              else if !b.nineD then {Acc, Mag}
              else if i == 1 then {Gyro, Acc} else if i == 2 then {Acc, Mag} else {Gyro, Acc, Mag}
  {
  }

  lemma FloorTable(gyro: int, acc: int, mag: int, nineD: bool)
    ensures var floors := map[3 := gyro, 0 := acc, 1 := mag];
      forall phys: Phys :: HandleOf(phys) in floors
        && Floor(Build(nineD, gyro, acc, mag), phys) == floors[HandleOf(phys)]
  {
  }

  // The period the best is cut to is the nearest one from 0 on, the latency the nearest one from 0
  // to 0.2 seconds.
  lemma SelectIsNearest(infos: seq<Virtual>, best: Params, x: int)
    ensures var p, low := Select(infos, best), Lowest(infos, best);
      && p.period >= 0 && 0 <= p.latency <= 200_000_000
      && (x >= 0 ==> p.period == low.period || p.period - low.period <= x - low.period)
      && (0 <= x <= 200_000_000 ==> Dist(p.latency, low.latency) <= Dist(x, low.latency))
  {
  }

  function Dist(a: int, b: int): int { if a < b then b - a else a - b }

  // ---------------------------------------------------------------- what the calls store

  lemma CallsKeepInfos(e: Setup, w: World, i: nat, phys: Phys, calls: AllCalls)
    requires Shaped(w.f)
    ensures EnablePhys(e, w, i, phys, calls).f.infos == w.f.infos
    ensures EnablePhys(e, w, i, phys, calls).f.best == w.f.best
    ensures EnablePhys(e, w, i, phys, calls).m.Keys == w.m.Keys
    ensures DisablePhys(e, w, i, phys, calls).f.infos == w.f.infos
    ensures DisablePhys(e, w, i, phys, calls).f.best == w.f.best
    ensures DisablePhys(e, w, i, phys, calls).m.Keys == w.m.Keys
    ensures BatchPhys(e, w, i, phys, calls).f.infos == w.f.infos
    ensures BatchPhys(e, w, i, phys, calls).f.best == w.f.best
    ensures BatchPhys(e, w, i, phys, calls).m.Keys == w.m.Keys
  {
    hide Uses, Batched, Activated, Request;
  }

  // Enabling changes the flag of one virtual sensor and nothing else about any of them.
  lemma EnabledStores(e: Setup, w: World, i: nat, calls: AllCalls)
    requires Shaped(w.f) && i < SENSORS
    ensures Enabled(e, w, i, calls).m.Keys == w.m.Keys
    ensures var f := Enabled(e, w, i, calls).f;
      && f.infos == w.f.infos[i := Virtual(true, w.f.infos[i].period, w.f.infos[i].latency)]
      && f.best == Update(w.f, i, Virtual(true, w.f.infos[i].period, w.f.infos[i].latency)).best
  {
    hide EnablePhys, Select;
    var w0 := w.(f := Update(w.f, i, w.f.infos[i].(enabled := true)));
    CallsKeepInfos(e, w0, i, Gyro, calls);
    CallsKeepInfos(e, EnablePhys(e, w0, i, Gyro, calls), i, Acc, calls);
    CallsKeepInfos(e, EnablePhys(e, EnablePhys(e, w0, i, Gyro, calls), i, Acc, calls), i, Mag, calls);
  }

  // Disabling forgets the request as well; the best is forgotten with the last sensor.
  lemma DisabledStores(e: Setup, w: World, i: nat, calls: AllCalls)
    requires Shaped(w.f) && i < SENSORS
    ensures Disabled(e, w, i, calls).m.Keys == w.m.Keys
    ensures var f := Disabled(e, w, i, calls).f;
      && f.infos == w.f.infos[i := Virtual(false, 0x7fff_ffff_ffff_ffff, 200_000_000)]
      && f.best == if NoneEnabled(f.infos) then Params(0x7fff_ffff_ffff_ffff, 200_000_000)
                   else Update(w.f, i, Virtual(false, 0x7fff_ffff_ffff_ffff, 200_000_000)).best
  {
    hide DisablePhys, Select, NoneEnabled;
    var w0 := w.(f := Update(w.f, i, OFF));
    CallsKeepInfos(e, w0, i, Gyro, calls);
    CallsKeepInfos(e, DisablePhys(e, w0, i, Gyro, calls), i, Acc, calls);
    CallsKeepInfos(e, DisablePhys(e, DisablePhys(e, w0, i, Gyro, calls), i, Acc, calls), i, Mag, calls);
  }

  // A batch stores the request, whether the virtual sensor is enabled or not.
  lemma RebatchedStores(e: Setup, w: World, i: nat, p: Params, calls: AllCalls)
    requires Shaped(w.f) && i < SENSORS
    ensures Rebatched(e, w, i, p, calls).m.Keys == w.m.Keys
    ensures var f := Rebatched(e, w, i, p, calls).f;
      && f.infos == w.f.infos[i := Virtual(w.f.infos[i].enabled, p.period, p.latency)]
      && f.best == Update(w.f, i, Virtual(w.f.infos[i].enabled, p.period, p.latency)).best
  {
    hide BatchPhys, Select;
    var w0 := w.(f := Update(w.f, i, Virtual(w.f.infos[i].enabled, p.period, p.latency)));
    CallsKeepInfos(e, w0, i, Gyro, calls);
    CallsKeepInfos(e, BatchPhys(e, w0, i, Gyro, calls), i, Acc, calls);
    CallsKeepInfos(e, BatchPhys(e, BatchPhys(e, w0, i, Gyro, calls), i, Acc, calls), i, Mag, calls);
  }

  // ---------------------------------------------------------------- the best is attained

  ghost predicate PeriodOfUser(infos: seq<Virtual>, q: int) {
    exists k :: 0 <= k < |infos| && infos[k].enabled && infos[k].period == q
  }

  ghost predicate LatencyOfUser(infos: seq<Virtual>, t: int) {
    exists k :: 0 <= k < |infos| && infos[k].enabled && infos[k].latency == t
  }

  lemma {:induction false} LowestIsAttained(infos: seq<Virtual>, best: Params)
    ensures var p := Lowest(infos, best);
      && (p.period == best.period || PeriodOfUser(infos, p.period))
      && (p.latency == best.latency || LatencyOfUser(infos, p.latency))
  {
    if infos != [] {
      var front, v := infos[..|infos| - 1], infos[|infos| - 1];
      LowestIsAttained(front, best);
      var p := Lowest(front, best);
      if k :| 0 <= k < |front| && front[k].enabled && front[k].period == p.period {
        assert infos[k] == front[k];
      }
      if k :| 0 <= k < |front| && front[k].enabled && front[k].latency == p.latency {
        assert infos[k] == front[k];
      }
      if v.enabled {
        assert PeriodOfUser(infos, v.period) && LatencyOfUser(infos, v.latency);
      }
    }
  }

  // For non-negative requests the new best is the lower of the old one and every enabled request,
  // in each component, and one of them.
  lemma BestIsAttained(f: State, i: nat, v: Virtual)
    requires Shaped(f) && i < SENSORS && NonNegative(f.best) && f.best.latency <= MAX_LATENCY
    requires NonNegativeInfos(f.infos[i := v])
    ensures var infos, best := f.infos[i := v], Update(f, i, v).best;
      && (best.period == f.best.period || PeriodOfUser(infos, best.period))
      && (best.latency == f.best.latency || LatencyOfUser(infos, best.latency))
      && best.period <= f.best.period && best.latency <= f.best.latency && BelowEnabled(best, infos)
      && NonNegative(best)
  {
    hide Lowest, PeriodOfUser, LatencyOfUser;
    LowestIsAttained(f.infos[i := v], f.best);
    LowestIsLow(f.infos[i := v], f.best);
  }

  // ---------------------------------------------------------------- every run

  // From j to i some virtual sensor was enabled all the time.
  ghost predicate InUse(worlds: seq<World>, j: nat, i: nat) {
    i < |worlds| && forall l | j <= l <= i :: !NoneEnabled(worlds[l].f.infos)
  }

  // An enabled virtual sensor has asked for the period since all were last off, or nobody asked
  // for less than the greatest one.
  ghost predicate PeriodAsked(worlds: seq<World>, i: nat, q: int) {
    q == 0x7fff_ffff_ffff_ffff
    || exists j: nat :: j <= i && InUse(worlds, j, i) && PeriodOfUser(worlds[j].f.infos, q)
  }

  ghost predicate LatencyAsked(worlds: seq<World>, i: nat, t: int) {
    t == 200_000_000
    || exists j: nat :: j <= i && InUse(worlds, j, i) && LatencyOfUser(worlds[j].f.infos, t)
  }

  ghost predicate Asked(worlds: seq<World>, i: nat, p: Params) {
    NonNegative(p) && p.latency <= MAX_LATENCY && PeriodAsked(worlds, i, p.period) && LatencyAsked(worlds, i, p.latency)
  }

  lemma StillAsked(worlds: seq<World>, i: nat, p: Params)
    requires i + 1 < |worlds| && Asked(worlds, i, p) && !NoneEnabled(worlds[i + 1].f.infos)
    ensures Asked(worlds, i + 1, p)
  {
    hide NoneEnabled, PeriodOfUser, LatencyOfUser;
    forall j: nat | InUse(worlds, j, i) ensures InUse(worlds, j, i + 1) { }
  }

  ghost predicate BestOk(worlds: seq<World>, i: nat)
    requires i < |worlds|
  {
    var f := worlds[i].f;
    && (NoneEnabled(f.infos) ==> f.best == Params(0x7fff_ffff_ffff_ffff, 200_000_000))
    && Asked(worlds, i, f.best)
  }

  lemma {:induction false} LowestOfNone(infos: seq<Virtual>, best: Params)
    requires NoneEnabled(infos)
    ensures Lowest(infos, best) == best
  {
    if infos != [] {
      LowestOfNone(infos[..|infos| - 1], best);
    }
  }

  // A new best is the old one or was just asked for.
  lemma UpdateAsked(e: Setup, worlds: seq<World>, i: nat, k: nat, v: Virtual)
    requires i + 1 < |worlds| && BestOk(worlds, i) && Sane(e, worlds[i]) && k < SENSORS
    requires v.period >= 0 && v.latency >= 0 && worlds[i + 1].f.infos == worlds[i].f.infos[k := v]
    requires worlds[i + 1].f.best == Update(worlds[i].f, k, v).best
    requires NoneEnabled(worlds[i + 1].f.infos) ==> NoneEnabled(worlds[i].f.infos)
    ensures BestOk(worlds, i + 1)
  {
    hide PeriodOfUser, LatencyOfUser, SensorOk, NoneEnabled, Lowest;
    var f, infos := worlds[i].f, worlds[i + 1].f.infos;
    BestIsAttained(f, k, v);
    if NoneEnabled(infos) {
      LowestOfNone(infos, f.best);
    } else {
      StillAsked(worlds, i, f.best);
      assert InUse(worlds, i + 1, i + 1);
    }
  }

  lemma {:induction false} BestIsAsked(e: Setup, worlds: seq<World>, ops: seq<FusionOp>, i: nat)
    requires IsRun(e, worlds, ops) && i < |worlds|
    ensures BestOk(worlds, i)
  {
    hide Inv, Asked, Enabled, Disabled, Rebatched, NoneEnabled, Update, Sane;
    if i == 0 {
      StartIsAsked(worlds);
    } else {
      var op := ops[i - 1];
      BestIsAsked(e, worlds, ops, i - 1);
      EveryRequestIsProgrammed(e, worlds, ops, i - 1, Acc, 0);
      assert IsStep(e, worlds[i - 1], op, worlds[i - 1 + 1]);
      BestStep(e, worlds, op, i - 1);
    }
  }

  lemma StartIsAsked(worlds: seq<World>)
    requires worlds != [] && Starts(worlds[0])
    ensures BestOk(worlds, 0)
  {
  }

  lemma BestStep(e: Setup, worlds: seq<World>, op: FusionOp, i: nat)
    requires i + 1 < |worlds| && Inv(e, worlds[i]) && IsStep(e, worlds[i], op, worlds[i + 1]) && BestOk(worlds, i)
    ensures BestOk(worlds, i + 1)
  {
    hide PhysOk, Enabled, Disabled, Rebatched, Update, SensorOk, PeriodAsked, LatencyAsked;
    var w := worlds[i];
    match op {
      case EnableOp(k, calls) =>
        EnabledStores(e, w, k, calls);
        assert worlds[i + 1].f.infos[k].enabled;
        UpdateAsked(e, worlds, i, k, Virtual(true, w.f.infos[k].period, w.f.infos[k].latency));
      case DisableOp(k, calls) =>
        DisabledStores(e, w, k, calls);
        if NoneEnabled(worlds[i + 1].f.infos) {
          NobodyAsked(worlds, i + 1);
        } else {
          UpdateAsked(e, worlds, i, k, OFF);
        }
      case BatchOp(k, p, calls) =>
        RebatchedStores(e, w, k, p, calls);
        SameFlags(w.f.infos, k, Virtual(w.f.infos[k].enabled, p.period, p.latency));
        UpdateAsked(e, worlds, i, k, Virtual(w.f.infos[k].enabled, p.period, p.latency));
      case OtherBatch(_, _, _, _) => SameAsked(worlds, i);
      case OtherActivate(_, _, _, _, _) => SameAsked(worlds, i);
      case OtherStep(_, _) => SameAsked(worlds, i);
    }
  }

  lemma NobodyAsked(worlds: seq<World>, i: nat)
    requires i < |worlds| && worlds[i].f.best == Params(0x7fff_ffff_ffff_ffff, 200_000_000)
    ensures BestOk(worlds, i)
  {
  }

  lemma SameFlags(infos: seq<Virtual>, k: nat, v: Virtual)
    requires k < |infos| && v.enabled == infos[k].enabled
    ensures NoneEnabled(infos[k := v]) <==> NoneEnabled(infos)
  {
    if NoneEnabled(infos[k := v]) {
      forall x | 0 <= x < |infos| ensures !infos[x].enabled {
        assert !infos[k := v][x].enabled;
      }
    }
  }

  lemma SameAsked(worlds: seq<World>, i: nat)
    requires i + 1 < |worlds| && BestOk(worlds, i) && worlds[i + 1].f == worlds[i].f
    ensures BestOk(worlds, i + 1)
  {
    hide NoneEnabled, PeriodOfUser, LatencyOfUser;
    if !NoneEnabled(worlds[i].f.infos) {
      StillAsked(worlds, i, worlds[i].f.best);
    }
  }

  // ---------------------------------------------------------------- the registered request

  // The registration stands for a best request that was asked for.
  ghost predicate RequestOk(e: Setup, worlds: seq<World>, i: nat, phys: Phys)
    requires i < |worlds| && Shaped(worlds[i].f)
  {
    HandleOf(phys) in worlds[i].m && worlds[i].f.counts[phys] > 0 ==>
      exists p :: Asked(worlds, i, p)
        && Lookup(worlds[i].m[HandleOf(phys)].clients, e.conn) == Some(Request(e, phys, p))
  }

  lemma OtherKeepsOurs(e: Setup, w: World, op: FusionOp, phys: Phys)
    requires Inv(e, w) && Allowed(e, w, op) && (op.OtherBatch? || op.OtherActivate? || op.OtherStep?)
    ensures Registers(e, w.m, Take(e, w, op), phys)
  {
    hide Batched, Activated, SensorOk, Request, Lookup, InOrder, StepAccepted, Stepped, PhysOk;
    if op.h in w.m {
      match op {
        case OtherBatch(c, h, p, result) => BatchedOk(w.m[h], c, p, result);
        case OtherActivate(c, h, enable, batchResult, result) => ActivatedOk(w.m[h], c, enable, batchResult, result);
        case OtherStep(h, step) => StepOk(w.m[h], step);
      }
    }
  }

  lemma TakeRegisters(e: Setup, w: World, op: FusionOp, phys: Phys)
    requires Inv(e, w) && Allowed(e, w, op)
    ensures Registers(e, w.m, Take(e, w, op), phys)
  {
    hide Inv, Enabled, Disabled, Rebatched, Registers;
    match op {
      case EnableOp(i, calls) => assert i < SENSORS; InvShaped(e, w); EnabledOk(e, w, i, calls);
      case DisableOp(i, calls) => assert i < SENSORS; InvShaped(e, w); DisabledOk(e, w, i, calls);
      case BatchOp(i, p, calls) => InvShaped(e, w); RebatchedOk(e, w, i, p, calls);
      case OtherBatch(_, _, _, _) => OtherKeepsOurs(e, w, op, phys);
      case OtherActivate(_, _, _, _, _) => OtherKeepsOurs(e, w, op, phys);
      case OtherStep(_, _) => OtherKeepsOurs(e, w, op, phys);
    }
  }

  lemma InvShaped(e: Setup, w: World)
    requires Inv(e, w)
    ensures Shaped(w.f)
  {
  }

  // A sensor that is used has a user.
  lemma UsedIsEnabled(e: Setup, w: World, phys: Phys)
    requires Inv(e, w) && w.f.counts[phys] > 0
    ensures !NoneEnabled(w.f.infos)
  {
    hide Users, Sane, Covered, Known;
    assert PhysOk(e, w, phys);
    if NoneEnabled(w.f.infos) {
      NoUsers(e.b, w.f.infos, phys);
    }
  }

  lemma KnownAt(e: Setup, w: World, phys: Phys)
    requires Inv(e, w)
    ensures Known(e, w, phys)
  {
    assert PhysOk(e, w, phys);
  }

  lemma {:induction false} RequestIsAsked(e: Setup, worlds: seq<World>, ops: seq<FusionOp>, i: nat, phys: Phys)
    requires IsRun(e, worlds, ops) && i < |worlds|
    ensures Inv(e, worlds[i]) && RequestOk(e, worlds, i, phys)
  {
    hide Sane, PhysOk, Asked, Request, Lookup, NoneEnabled, Take, Allowed;
    EveryRequestIsProgrammed(e, worlds, ops, i, phys, 0);
    if i > 0 && HandleOf(phys) in worlds[i].m && worlds[i].f.counts[phys] > 0 {
      var w := worlds[i - 1];
      RequestIsAsked(e, worlds, ops, i - 1, phys);
      assert IsStep(e, w, ops[i - 1], worlds[i - 1 + 1]);
      TakeRegisters(e, w, ops[i - 1], phys);
      TakeKeepsHandles(e, w, ops[i - 1]);
      UsedIsEnabled(e, worlds[i], phys);
      KnownAt(e, worlds[i], phys);
      KnownAt(e, w, phys);
      BestIsAsked(e, worlds, ops, i);
      if Lookup(worlds[i].m[HandleOf(phys)].clients, e.conn) == Lookup(w.m[HandleOf(phys)].clients, e.conn) {
        var p :| Asked(worlds, i - 1, p) && Lookup(w.m[HandleOf(phys)].clients, e.conn) == Some(Request(e, phys, p));
        StillAsked(worlds, i - 1, p);
      }
    } else if i == 0 {
      StartUnused(worlds[0], phys);
    }
  }

  lemma StartUnused(w: World, phys: Phys)
    requires Starts(w)
    ensures Shaped(w.f) && w.f.counts[phys] == 0
  {
    StartShaped();
  }

  lemma TakeKeepsHandles(e: Setup, w: World, op: FusionOp)
    requires Allowed(e, w, op)
    ensures Take(e, w, op).m.Keys == w.m.Keys
  {
    hide Batched, Activated, Stepped, Enabled, Disabled, Rebatched, CallsSucceed, InOrder;
    match op {
      case EnableOp(i, calls) => EnabledStores(e, w, i, calls);
      case DisableOp(i, calls) => DisabledStores(e, w, i, calls);
      case BatchOp(i, p, calls) => RebatchedStores(e, w, i, p, calls);
      case _ =>
    }
  }

  // In every world of every run: what is registered for a physical sensor in use is the largest of
  // its two floors and a period that an enabled virtual sensor asked for since all of them were
  // last off, with a latency that one asked for since then.
  lemma EveryRequestIsAsked(e: Setup, worlds: seq<World>, ops: seq<FusionOp>, i: nat, phys: Phys)
    requires IsRun(e, worlds, ops) && i < |worlds|
    requires HandleOf(phys) in worlds[i].m
    ensures Inv(e, worlds[i])
    ensures worlds[i].f.counts[phys] > 0 ==>
      exists q, t :: PeriodAsked(worlds, i, q) && LatencyAsked(worlds, i, t)
        && Lookup(worlds[i].m[HandleOf(phys)].clients, e.conn)
           == Some(Params(Max(Max(q, Floor(e.b, phys)), MinDelayNs(e.list, HandleOf(phys))), t))
  {
    hide Inv, PeriodAsked, LatencyAsked, Lookup, MinDelayNs;
    RequestIsAsked(e, worlds, ops, i, phys);
    InvShaped(e, worlds[i]);
    if worlds[i].f.counts[phys] > 0 {
      var p :| Asked(worlds, i, p)
        && Lookup(worlds[i].m[HandleOf(phys)].clients, e.conn) == Some(Request(e, phys, p));
      assert PeriodAsked(worlds, i, p.period) && LatencyAsked(worlds, i, p.latency);
    }
  }
}
