// ApFusionSensor of Fusion.cpp: eleven virtual sensors computed from three physical ones.
// One connection to the sensor manager carries the best request of the enabled ones.
module Fusion {
  import opened Basics
  import opened SensorManager

  datatype Phys = Gyro | Acc | Mag

  function HandleOf(phys: Phys): int {
    match phys
    case Gyro => 3
    case Acc => 0
    case Mag => 1
  }

  // Compile-time choices: the 9D algorithm and the minimum delays in nanoseconds.
  datatype Build = Build(nineD: bool, gyroFloor: int, accFloor: int, magFloor: int)

  function Floor(b: Build, phys: Phys): int {
    match phys
    case Gyro => b.gyroFloor
    case Acc => b.accFloor
    case Mag => b.magFloor
  }

  const SENSORS: nat := 11
  const GRV: nat := 1
  const GMRV: nat := 2
  const UNACC: nat := 6
  const UNGYRO: nat := 7
  const UNMAG: nat := 8

  // HandleToIndex; -1 for a handle that is no virtual sensor.
  function IndexOf(handle: int): (i: int)
    ensures -1 <= i < SENSORS
  {
    match handle
    case 2 => 0
    case 14 => GRV
    case 19 => GMRV
    case 10 => 3
    case 9 => 4
    case 8 => 5
    case 34 => UNACC
    case 15 => UNGYRO
    case 13 => UNMAG
    case 57 => 9
    case 70 => 10
    case _ => -1
  }

  // The useAccData / useGyroData / useMagData flags the constructor sets.
  predicate Uses(b: Build, i: nat, phys: Phys) {
    match phys
    case Acc => i != UNGYRO && i != UNMAG
    case Gyro => i == UNGYRO || (b.nineD && i != GMRV && i != UNACC && i != UNMAG)
    case Mag => i == UNMAG || (i != UNACC && i != UNGYRO && (i != GRV || !b.nineD))
  }

  datatype Virtual = Virtual(enabled: bool, period: int, latency: int)

  const MAX_PERIOD: int := 0x7fff_ffff_ffff_ffff
  const MAX_LATENCY: int := 200_000_000

  // The part of the sensor's own state that requests depend on.
  datatype State = State(infos: seq<Virtual>, best: Params, counts: map<Phys, int>)

  predicate Shaped(f: State) { |f.infos| == SENSORS && forall phys: Phys :: phys in f.counts }

  const OFF: Virtual := Virtual(false, MAX_PERIOD, MAX_LATENCY)
  const START: State :=
    State([OFF, OFF, OFF, OFF, OFF, OFF, OFF, OFF, OFF, OFF, OFF],
          Params(MAX_PERIOD, MAX_LATENCY), map[Gyro := 0, Acc := 0, Mag := 0])

  lemma StartShaped()
    ensures Shaped(START)
  {
    forall phys: Phys ensures phys in START.counts {
      match phys case Gyro => case Acc => case Mag =>
    }
  }

  // The loop of selectBestSampleLatency over the first entries; the previous best is a start
  // value, never forgotten.
  function Lowest(infos: seq<Virtual>, best: Params): Params {
    if infos == [] then best
    else
      var p, v := Lowest(infos[..|infos| - 1], best), infos[|infos| - 1];
      if v.enabled then Params(Min(p.period, v.period), Min(p.latency, v.latency)) else p
  }

  function Select(infos: seq<Virtual>, best: Params): Params {
    var p := Lowest(infos, best);
    Params(if p.period < 0 then 0 else p.period,
           if p.latency < 0 then 0 else if p.latency > MAX_LATENCY then MAX_LATENCY else p.latency)
  }

  // What the driver answers to the calls one operation can cause on one physical sensor.
  datatype Calls = Calls(batch: int, rebatch: int, activate: int)
  datatype AllCalls = AllCalls(gyro: Calls, acc: Calls, mag: Calls)

  function CallsOf(calls: AllCalls, phys: Phys): Calls {
    match phys
    case Gyro => calls.gyro
    case Acc => calls.acc
    case Mag => calls.mag
  }

  // The sensor and the manager behind it; list holds the manager's minimum delays.
  datatype World = World(f: State, m: Sensors)
  datatype Setup = Setup(b: Build, conn: Conn, list: seq<(int, int)>)

  // The request sent for a physical sensor, after the floor of this file and the manager's.
  function Request(e: Setup, phys: Phys, best: Params): Params {
    var floored := if best.period < Floor(e.b, phys) then Floor(e.b, phys) else best.period;
    Params(Clamp(MinDelayNs(e.list, HandleOf(phys)), floored), best.latency)
  }

  function Send(e: Setup, w: World, phys: Phys, calls: AllCalls): World {
    w.(m := BatchAt(w.m, e.conn, HandleOf(phys), Request(e, phys, w.f.best), CallsOf(calls, phys).batch))
  }

  function Turn(e: Setup, w: World, phys: Phys, on: bool, calls: AllCalls): World {
    var c := CallsOf(calls, phys);
    w.(m := ActivateAt(w.m, e.conn, HandleOf(phys), on, c.rebatch, c.activate))
  }

  function SetCount(w: World, phys: Phys, n: int): World {
    w.(f := w.f.(counts := w.f.counts[phys := n]))
  }

  function EnablePhys(e: Setup, w: World, i: nat, phys: Phys, calls: AllCalls): (r: World)
    requires Shaped(w.f)
    ensures Shaped(r.f)
  {
    if !Uses(e.b, i, phys) then w
    else
      var n := w.f.counts[phys];
      var sent := Send(e, w, phys, calls);
      SetCount(if n == 0 then Turn(e, sent, phys, true, calls) else sent, phys, n + 1)
  }

  function DisablePhys(e: Setup, w: World, i: nat, phys: Phys, calls: AllCalls): (r: World)
    requires Shaped(w.f)
    ensures Shaped(r.f)
  {
    if !Uses(e.b, i, phys) then w
    else
      var n := w.f.counts[phys] - 1;
      if n == 0 then SetCount(Turn(e, w, phys, false, calls), phys, 0)
      else if n > 0 then SetCount(Send(e, w, phys, calls), phys, n)
      else SetCount(w, phys, 0)
  }

  function BatchPhys(e: Setup, w: World, i: nat, phys: Phys, calls: AllCalls): (r: World)
    requires Shaped(w.f)
    ensures Shaped(r.f)
  {
    if Uses(e.b, i, phys) && w.f.counts[phys] != 0 then Send(e, w, phys, calls) else w
  }

  function Update(f: State, i: nat, v: Virtual): State
    requires Shaped(f) && i < SENSORS
  {
    var infos := f.infos[i := v];
    f.(infos := infos, best := Select(infos, f.best))
  }

  function Enabled(e: Setup, w: World, i: nat, calls: AllCalls): World
    requires Shaped(w.f) && i < SENSORS
  {
    var w0 := w.(f := Update(w.f, i, w.f.infos[i].(enabled := true)));
    var w1 := EnablePhys(e, w0, i, Gyro, calls);
    var w2 := EnablePhys(e, w1, i, Acc, calls);
    EnablePhys(e, w2, i, Mag, calls)
  }

  predicate NoneEnabled(infos: seq<Virtual>) { forall k | 0 <= k < |infos| :: !infos[k].enabled }

  function Disabled(e: Setup, w: World, i: nat, calls: AllCalls): World
    requires Shaped(w.f) && i < SENSORS
  {
    var w0 := w.(f := Update(w.f, i, OFF));
    var w1 := DisablePhys(e, w0, i, Gyro, calls);
    var w2 := DisablePhys(e, w1, i, Acc, calls);
    var w3 := DisablePhys(e, w2, i, Mag, calls);
    if NoneEnabled(w3.f.infos) then w3.(f := w3.f.(best := Params(MAX_PERIOD, MAX_LATENCY))) else w3
  }

  function Rebatched(e: Setup, w: World, i: nat, p: Params, calls: AllCalls): World
    requires Shaped(w.f) && i < SENSORS
  {
    var w0 := w.(f := Update(w.f, i, Virtual(w.f.infos[i].enabled, p.period, p.latency)));
    var w1 := BatchPhys(e, w0, i, Gyro, calls);
    var w2 := BatchPhys(e, w1, i, Acc, calls);
    BatchPhys(e, w2, i, Mag, calls)
  }

  class ApFusionSensor {
    const b: Build
    const conn: Conn
    const manager: Manager
    var infos: seq<Virtual>
    var best: Params
    // gyroEnabledCount, accEnabledCount and magEnabledCount
    var counts: map<Phys, int>

    ghost predicate Valid()
      reads this, manager
    {
      manager.Valid() && Shaped(State(infos, best, counts))
    }

    ghost function Env(): Setup { Setup(b, conn, manager.sensorList) }

    ghost function Now(): (w: World)
      requires Valid()
      reads this, manager
      ensures Shaped(w.f)
    {
      World(State(infos, best, counts), manager.State())
    }

    constructor (b: Build, conn: Conn, manager: Manager)
      requires manager.Valid()
      ensures Valid() && this.b == b && this.conn == conn && this.manager == manager
      ensures Now() == World(START, manager.State())
    {
      this.b, this.conn, this.manager := b, conn, manager;
      infos := START.infos;
      best := START.best;
      counts := START.counts;
      StartShaped();
    }

    method SelectBestSampleLatency()
      requires Valid()
      modifies this`best
      ensures Valid() && best == Select(infos, old(best))
    {
      var period, latency := best.period, best.latency;
      for index := 0 to |infos|
        invariant Params(period, latency) == Lowest(infos[..index], best)
      {
        assert infos[..index + 1][..index] == infos[..index];
        if infos[index].enabled {
          if period > infos[index].period {
            period := infos[index].period;
          }
          if latency > infos[index].latency {
            latency := infos[index].latency;
          }
        }
      }
      assert infos[..|infos|] == infos;
      if period < 0 {
        period := 0;
      }
      if latency < 0 {
        latency := 0;
      }
      if latency > MAX_LATENCY {
        latency := MAX_LATENCY;
      }
      best := Params(period, latency);
    }

    method SendBest(phys: Phys, calls: AllCalls)
      requires Valid()
      modifies manager
      ensures Valid() && Now() == Send(Env(), old(Now()), phys, calls)
    {
      var period := if best.period < Floor(b, phys) then Floor(b, phys) else best.period;
      var err := manager.Batch(conn, HandleOf(phys), period, best.latency, CallsOf(calls, phys).batch);
    }

    method EnablePhysical(i: nat, phys: Phys, calls: AllCalls)
      requires Valid()
      modifies this`counts, manager
      ensures Valid() && Now() == EnablePhys(Env(), old(Now()), i, phys, calls)
    {
      hide BatchAt, ActivateAt;
      if Uses(b, i, phys) {
        SendBest(phys, calls);
        if counts[phys] == 0 {
          var c := CallsOf(calls, phys);
          var err := manager.Activate(conn, HandleOf(phys), true, c.rebatch, c.activate);
        }
        counts := counts[phys := counts[phys] + 1];
      }
    }

    method DisablePhysical(i: nat, phys: Phys, calls: AllCalls)
      requires Valid()
      modifies this`counts, manager
      ensures Valid() && Now() == DisablePhys(Env(), old(Now()), i, phys, calls)
    {
      hide BatchAt, ActivateAt;
      if Uses(b, i, phys) {
        counts := counts[phys := counts[phys] - 1];
        if counts[phys] == 0 {
          var c := CallsOf(calls, phys);
          var err := manager.Activate(conn, HandleOf(phys), false, c.rebatch, c.activate);
        } else if counts[phys] > 0 {
          SendBest(phys, calls);
        } else {
          counts := counts[phys := 0];
        }
      }
    }

    method Enable(handle: int, en: bool, calls: AllCalls) returns (err: int)
      requires Valid()
      modifies this, manager
      ensures Valid()
      ensures var i := IndexOf(handle);
        && err == (if i < 0 then -1 else 0)
        && Now() == if i < 0 then old(Now())
                    else if en then Enabled(Env(), old(Now()), i, calls)
                    else Disabled(Env(), old(Now()), i, calls)
    {
      hide BatchAt, ActivateAt, EnablePhys, DisablePhys, Select;
      var i := IndexOf(handle);
      if i < 0 {
        return -1;
      }
      if en {
        infos := infos[i := infos[i].(enabled := true)];
        SelectBestSampleLatency();
        EnablePhysical(i, Gyro, calls);
        EnablePhysical(i, Acc, calls);
        EnablePhysical(i, Mag, calls);
      } else {
        infos := infos[i := OFF];
        SelectBestSampleLatency();
        DisablePhysical(i, Gyro, calls);
        DisablePhysical(i, Acc, calls);
        DisablePhysical(i, Mag, calls);
        if NoneEnabled(infos) {
          best := Params(MAX_PERIOD, MAX_LATENCY);
        }
      }
      return 0;
    }

    method Batch(handle: int, samplingPeriodNs: int, latencyNs: int, calls: AllCalls) returns (err: int)
      requires Valid()
      modifies this, manager
      ensures Valid()
      ensures var i := IndexOf(handle);
        && err == (if i < 0 then -1 else 0)
        && Now() == if i < 0 then old(Now())
                    else Rebatched(Env(), old(Now()), i, Params(samplingPeriodNs, latencyNs), calls)
    {
      hide BatchAt, ActivateAt, Send, Select;
      var i := IndexOf(handle);
      if i < 0 {
        return -1;
      }
      infos := infos[i := Virtual(infos[i].enabled, samplingPeriodNs, latencyNs)];
      SelectBestSampleLatency();
      if Uses(b, i, Gyro) && counts[Gyro] != 0 {
        SendBest(Gyro, calls);
      }
      if Uses(b, i, Acc) && counts[Acc] != 0 {
        SendBest(Acc, calls);
      }
      if Uses(b, i, Mag) && counts[Mag] != 0 {
        SendBest(Mag, calls);
      }
      return 0;
    }
  }
}
