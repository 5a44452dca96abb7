// Whether the physical sensors run at all for the enabled virtual sensors: they do when the
// other clients follow each first batch with its activate, and may not when they do not.
module FusionDriver {
  import opened KeyedVector
  import opened SensorManager
  import opened Arbitration
  import opened Fusion
  import opened FusionRate

  // Other clients take whole steps in order, and none of them loses the driver.
  ghost predicate Disciplined(w: World, op: FusionOp) {
    match op
    case OtherBatch(_, _, _, _) => false
    case OtherActivate(_, _, _, _, _) => false
    case OtherStep(h, step) => h in w.m ==> !LosesDriver(w.m[h], step)
    case _ => true
  }

  ghost predicate IsDisciplinedRun(e: Setup, worlds: seq<World>, ops: seq<FusionOp>) {
    IsRun(e, worlds, ops) && forall j | 0 <= j < |ops| :: Disciplined(worlds[j], ops[j])
  }

  // The driver is on, no slower than asked, up to the floors, and no later than asked.
  ghost predicate Served(e: Setup, w: World, phys: Phys, k: nat)
    requires Shaped(w.f) && k < SENSORS
  {
    w.f.infos[k].enabled && Uses(e.b, k, phys) && HandleOf(phys) in w.m ==>
      w.m[HandleOf(phys)].driver.on && RateProgrammed(e, w, phys, k)
  }

  lemma TakeKeepsSynced(e: Setup, w: World, op: FusionOp)
    requires Inv(e, w) && Allowed(e, w, op) && Disciplined(w, op) && AllSynced(w.m)
    ensures AllSynced(Take(e, w, op).m)
  {
    hide AllSynced, PhysOk, Best;
    match op {
      case EnableOp(i, calls) => EnabledOk(e, w, i, calls);
      case DisableOp(i, calls) => DisabledOk(e, w, i, calls);
      case BatchOp(i, p, calls) => RebatchedOk(e, w, i, p, calls);
      case OtherStep(h, step) => StepKeepsSynced(w.m, h, step);
    }
  }

  lemma SyncedServes(e: Setup, w: World, phys: Phys, k: nat)
    requires Inv(e, w) && AllSynced(w.m) && k < SENSORS
    ensures Served(e, w, phys, k)
  {
    hide Users, Limit, Uses, SensorOk, RateProgrammed;
    InvPrograms(e, w, phys, k);
    assert PhysOk(e, w, phys);
    if w.f.infos[k].enabled && Uses(e.b, k, phys) && HandleOf(phys) in w.m {
      UserCounts(e.b, w.f.infos, phys, k);
      assert Lookup(w.m[HandleOf(phys)].clients, e.conn).Some?;
    }
  }

  // In every world of every disciplined run each enabled virtual sensor finds the driver of
  // each physical sensor it uses on, and running at its rate or faster.
  lemma {:induction false} EveryUserIsServed(e: Setup, worlds: seq<World>, ops: seq<FusionOp>, i: nat,
      phys: Phys, k: nat)
    requires IsDisciplinedRun(e, worlds, ops) && i < |worlds| && k < SENSORS
    ensures Inv(e, worlds[i]) && AllSynced(worlds[i].m)
    ensures Served(e, worlds[i], phys, k)
  {
    hide Take, Allowed, Served, Disciplined, Inv, AllSynced;
    EveryRequestIsProgrammed(e, worlds, ops, i, phys, k);
    if i == 0 {
      StartSynced(worlds[0]);
    } else {
      EveryUserIsServed(e, worlds, ops, i - 1, phys, k);
      assert IsStep(e, worlds[i - 1], ops[i - 1], worlds[i - 1 + 1]);
      TakeKeepsSynced(e, worlds[i - 1], ops[i - 1]);
    }
    SyncedServes(e, worlds[i], phys, k);
  }

  lemma StartSynced(w: World)
    requires Starts(w)
    ensures AllSynced(w.m)
  {
  }

  // Whatever the others do: enabling a virtual sensor leaves the driver of a physical sensor it
  // uses on exactly if that was on before, or nobody was registered with it.
  lemma EnableLeavesDriverOnIff(e: Setup, worlds: seq<World>, ops: seq<FusionOp>, i: nat, phys: Phys)
    requires IsRun(e, worlds, ops) && i < |ops| && ops[i].EnableOp?
    requires Uses(e.b, ops[i].i, phys) && HandleOf(phys) in worlds[i].m
    ensures HandleOf(phys) in worlds[i + 1].m
    ensures var before, after := worlds[i].m[HandleOf(phys)], worlds[i + 1].m[HandleOf(phys)];
      after.driver.on <==> before.clients == [] || before.driver.on
  {
    hide Inv, Enabled, Uses;
    EveryRequestIsProgrammed(e, worlds, ops, i, phys, 0);
    assert IsStep(e, worlds[i], ops[i], worlds[i + 1]);
    EnabledOk(e, worlds[i], ops[i].i, ops[i].calls);
    assert JoinsDriver(e.b, worlds[i].m, worlds[i + 1].m, ops[i].i, phys);
  }

  // ---------------------------------------------------------------- an undisciplined run

  const GOOD: AllCalls := AllCalls(Calls(0, 0, 0), Calls(0, 0, 0), Calls(0, 0, 0))
  const SETUP: Setup := Setup(Build(false, 0, 0, 0), 1, [])

  // Another client batches the accelerometer and never activates it; the virtual sensor
  // enabled next is the second client there, and nobody turns the driver on.
  lemma BatchAloneLeavesDriverOff() returns (worlds: seq<World>, ops: seq<FusionOp>)
    ensures IsRun(SETUP, worlds, ops) && |worlds| == 3
    ensures |worlds[2].f.infos| == SENSORS && worlds[2].f.infos[UNACC].enabled && Uses(SETUP.b, UNACC, Acc)
    ensures HandleOf(Acc) in worlds[2].m && !worlds[2].m[HandleOf(Acc)].driver.on
  {
    var other := FusionOp.OtherBatch(2, HandleOf(Acc), Params(5, 0), 0);
    var enable := EnableOp(UNACC, GOOD);
    StartShaped();
    var w0 := World(START, map[HandleOf(Acc) := IDLE]);
    var w1 := Take(SETUP, w0, other);
    var w2 := Take(SETUP, w1, enable);
    worlds, ops := [w0, w1, w2], [other, enable];
    assert IsStep(SETUP, worlds[0], ops[0], worlds[1]);
    assert IsStep(SETUP, worlds[1], ops[1], worlds[2]);
    assert w1.m[HandleOf(Acc)].clients != [] && !w1.m[HandleOf(Acc)].driver.on;
    EnableLeavesDriverOnIff(SETUP, worlds, ops, 1, Acc);
  }
}
