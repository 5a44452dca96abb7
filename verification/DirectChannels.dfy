// DirectChannelManager.cpp: direct report channels subscribe to sensors at a rate level; the
// manager keeps one merged level per sensor and one registration with the sensor manager.
module DirectChannels {
  import opened KeyedVector
  import opened SensorManager

  const STOP: int := 0
  const NORMAL: int := 1
  const FAST: int := 2
  const VERY_FAST: int := 3

  const BAD_VALUE: int := -22
  const INT64_MAX: int := 0x7fff_ffff_ffff_ffff

  // Accelerometer, gyroscope, magnetic field and the two uncalibrated ones.
  const HANDLES: seq<int> := [0, 3, 1, 15, 13]

  predicate IsMagnetic(h: int) { h == 1 || h == 13 }

  // Rate levels by channel; the order of iteration plays no role.
  type Subs = seq<Entry<int, int>>

  predicate IntLess(a: int, b: int) { a < b }

  function Higher(a: int, b: int): int { if a < b then b else a }

  function Highest(es: Subs): int {
    if es == [] then STOP else Higher(Highest(es[..|es| - 1]), es[|es| - 1].value)
  }

  datatype State = State(channels: set<int>, next: int, subs: map<int, Subs>, levels: map<int, int>)

  const START: State := State({}, 1, map[0 := [], 3 := [], 1 := [], 15 := [], 13 := []], map[])

  // rateLevelToDeviceSamplingPeriodNs for a sensor that has channels.
  function PeriodOf(known: bool, h: int, level: int): int {
    if !known then INT64_MAX
    else if (level == VERY_FAST || level == FAST) && !IsMagnetic(h) then 2_500_000
    else if level == VERY_FAST || level == FAST || level == NORMAL then 20_000_000
    else INT64_MAX
  }

  // The answers of the driver to the calls one merge can cause.
  datatype Calls = Calls(batch: int, rebatch: int, activate: int)

  datatype World = World(d: State, m: Sensors)
  datatype Setup = Setup(conn: Conn, list: seq<(int, int)>)

  function Level(d: State, h: int): int {
    if h in d.subs then Highest(d.subs[h]) else STOP
  }

  function RequestFor(e: Setup, d: State, h: int, level: int): Params {
    Params(Clamp(MinDelayNs(e.list, h), PeriodOf(h in d.subs, h, level)), 0)
  }

  function Asked(e: Setup, d: State, h: int): Params {
    RequestFor(e, d, h, Level(d, h))
  }

  // mergeDirectReportRequest
  function Merged(e: Setup, w: World, h: int, c: Calls): World {
    var level := Level(w.d, h);
    var had := h in w.d.levels;
    if level != STOP then
      var d := w.d.(levels := w.d.levels[h := level]);
      var m := if had && w.d.levels[h] == level then w.m else BatchAt(w.m, e.conn, h, Asked(e, w.d, h), c.batch);
      World(d, if had then m else ActivateAt(m, e.conn, h, true, c.rebatch, c.activate))
    else if had then
      World(w.d.(levels := w.d.levels - {h}), ActivateAt(w.m, e.conn, h, false, c.rebatch, c.activate))
    else w
  }

  function BatchReturn(e: Setup, w: World, h: int, c: Calls): int {
    if h in w.m then BatchResult(w.m[h], e.conn, Asked(e, w.d, h), c.batch) else -1
  }

  function ActivateReturn(m: Sensors, conn: Conn, h: int, enable: bool, c: Calls): int {
    if h in m then ActivateResult(m[h], conn, enable, c.activate) else -1
  }

  function MergeResult(e: Setup, w: World, h: int, c: Calls): int {
    var level := Level(w.d, h);
    var had := h in w.d.levels;
    if level != STOP then
      if had then (if w.d.levels[h] == level then 0 else BatchReturn(e, w, h, c))
      else ActivateReturn(BatchAt(w.m, e.conn, h, Asked(e, w.d, h), c.batch), e.conn, h, true, c)
    else if had then ActivateReturn(w.m, e.conn, h, false, c)
    else 0
  }

  function MergedAll(e: Setup, w: World, hs: seq<int>, calls: int -> Calls): World {
    if hs == [] then w
    else Merged(e, MergedAll(e, w, hs[..|hs| - 1], calls), hs[|hs| - 1], calls(hs[|hs| - 1]))
  }

  function LastResult(e: Setup, w: World, hs: seq<int>, calls: int -> Calls): int {
    if hs == [] then 0
    else MergeResult(e, MergedAll(e, w, hs[..|hs| - 1], calls), hs[|hs| - 1], calls(hs[|hs| - 1]))
  }

  function Erased(subs: map<int, Subs>, ch: int): map<int, Subs> {
    map h | h in subs :: Remove(subs[h], ch)
  }

  // The sensors whose last subscription ends with this channel.
  function ToStop(subs: map<int, Subs>, ch: int, hs: seq<int>): (r: seq<int>)
    ensures forall h | h in r :: h in subs
  {
    if hs == [] then []
    else
      var h := hs[|hs| - 1];
      ToStop(subs, ch, hs[..|hs| - 1])
      + (if h in subs && HasKey(subs[h], ch) && Remove(subs[h], ch) == [] then [h] else [])
  }

  // stopAllDirectReportOnChannel
  function Stopped(e: Setup, w: World, ch: int, calls: int -> Calls): World {
    if ch !in w.d.channels then w
    else MergedAll(e, w.(d := w.d.(subs := Erased(w.d.subs, ch))), ToStop(w.d.subs, ch, HANDLES), calls)
  }

  function StopResult(e: Setup, w: World, ch: int, calls: int -> Calls): int {
    if ch !in w.d.channels then BAD_VALUE
    else LastResult(e, w.(d := w.d.(subs := Erased(w.d.subs, ch))), ToStop(w.d.subs, ch, HANDLES), calls)
  }

  // removeDirectChannel
  function Removed(e: Setup, w: World, ch: int, calls: int -> Calls): World {
    var w' := Stopped(e, w, ch, calls);
    w'.(d := w'.d.(channels := w'.d.channels - {ch}))
  }

  // What addDirectChannel finds out about the memory.
  datatype Memory = InUse | Mapped | Refused(error: int)

  function Added(w: World, mem: Memory): World {
    if mem.Mapped? then w.(d := w.d.(channels := w.d.channels + {w.d.next}, next := w.d.next + 1)) else w
  }

  function Subscribed(d: State, h: int, ch: int, level: int): State
    requires h in d.subs
  {
    var rest := Remove(d.subs[h], ch);
    d.(subs := d.subs[h := if level == STOP then rest else Add(IntLess, rest, ch, level)])
  }

  function ClampLevel(level: int): int { if level > FAST then FAST else level }

  // configDirectReport
  function Configured(e: Setup, w: World, h: int, ch: int, rate: int, calls: int -> Calls): World {
    if h == -1 && rate == STOP then Stopped(e, w, ch, calls)
    else if ch !in w.d.channels || h !in w.d.subs then w
    else
      Merged(e, w.(d := Subscribed(w.d, h, ch, ClampLevel(rate))), h, calls(h))
  }

  function ConfigResult(e: Setup, w: World, h: int, ch: int, rate: int, calls: int -> Calls): int {
    if h == -1 && rate == STOP then StopResult(e, w, ch, calls)
    else if ch !in w.d.channels || h !in w.d.subs then BAD_VALUE
    else if rate == STOP then 0
    else
      var r := MergeResult(e, w.(d := Subscribed(w.d, h, ch, ClampLevel(rate))), h, calls(h));
      if r < 0 then r else h + ID_OFFSET
  }

  // hs lists every sensor with channels, once.
  ghost predicate AllOf(hs: seq<int>, subs: map<int, Subs>) {
    && (forall h :: h in subs <==> h in hs)
    && forall i, j | 0 <= i < j < |hs| :: hs[i] != hs[j]
  }

  // The first i listed sensors are done, the others untouched.
  ghost predicate ErasedUpTo(before: map<int, Subs>, now: map<int, Subs>, ch: int, hs: seq<int>, i: nat) {
    && AllOf(hs, before) && i <= |hs| && now.Keys == before.Keys
    && (forall j | 0 <= j < |hs| :: hs[j] in before)
    && forall j | 0 <= j < |hs| :: now[hs[j]] == if j < i then Remove(before[hs[j]], ch) else before[hs[j]]
  }

  lemma ErasedUpToStart(before: map<int, Subs>, ch: int, hs: seq<int>)
    requires AllOf(hs, before)
    ensures ErasedUpTo(before, before, ch, hs, 0) && ToStop(before, ch, hs[..0]) == []
  {
    assert forall j | 0 <= j < |hs| :: hs[j] in hs;
  }

  lemma ErasedUpToStep(before: map<int, Subs>, now: map<int, Subs>, ch: int, hs: seq<int>, i: nat)
    requires ErasedUpTo(before, now, ch, hs, i) && i < |hs|
    ensures hs[i] in now && hs[i] in before && now[hs[i]] == before[hs[i]]
    ensures ErasedUpTo(before, now[hs[i] := Remove(now[hs[i]], ch)], ch, hs, i + 1)
  {
    hide Remove;
  }

  lemma ErasedUpToEnd(before: map<int, Subs>, now: map<int, Subs>, ch: int, hs: seq<int>)
    requires ErasedUpTo(before, now, ch, hs, |hs|)
    ensures now == Erased(before, ch)
  {
    hide Remove;
    forall h | h in before ensures now[h] == Remove(before[h], ch) {
      assert h in hs;
    }
  }

  lemma ToStopStep(subs: map<int, Subs>, ch: int, hs: seq<int>, i: nat)
    requires i < |hs|
    ensures ToStop(subs, ch, hs[..i + 1]) == ToStop(subs, ch, hs[..i])
      + (if hs[i] in subs && HasKey(subs[hs[i]], ch) && Remove(subs[hs[i]], ch) == [] then [hs[i]] else [])
  {
    hide HasKey, Remove;
    assert hs[..i + 1][..i] == hs[..i];
  }

  lemma HandlesAreAll(subs: map<int, Subs>)
    requires subs.Keys == START.subs.Keys
    ensures AllOf(HANDLES, subs)
  {
    assert forall h :: h in subs <==> h in START.subs;
  }

  class DirectChannelManager {
    const conn: Conn
    const manager: Manager
    // the live channel handles of mDirectChannel
    var channels: set<int>
    var next: int
    var subs: map<int, Subs>
    var levels: map<int, int>

    ghost predicate Valid()
      reads this, manager
    {
      manager.Valid()
    }

    ghost function Env(): Setup { Setup(conn, manager.sensorList) }

    ghost function Now(): World
      requires Valid()
      reads this, manager
    {
      World(State(channels, next, subs, levels), manager.State())
    }

    constructor (conn: Conn, manager: Manager)
      requires manager.Valid()
      ensures Valid() && this.conn == conn && this.manager == manager
      ensures Now() == World(START, manager.State())
    {
      this.conn, this.manager := conn, manager;
      channels, next := {}, 1;
      subs := START.subs;
      levels := map[];
    }

    method MaxRateLevel(h: int) returns (level: int)
      requires Valid()
      ensures level == Level(Now().d, h)
    {
      level := STOP;
      if h in subs {
        for i := 0 to |subs[h]|
          invariant level == Highest(subs[h][..i])
        {
          assert subs[h][..i + 1][..i] == subs[h][..i];
          level := Higher(level, subs[h][i].value);
        }
        assert subs[h][..|subs[h]|] == subs[h];
      }
    }

    method MergeDirectReportRequest(h: int, c: Calls) returns (ret: int)
      requires Valid()
      modifies this`levels, manager
      ensures Valid() && Now() == Merged(Env(), old(Now()), h, c)
      ensures ret == MergeResult(Env(), old(Now()), h, c)
    {
      hide Highest, BatchAt, ActivateAt, BatchResult, ActivateResult, PeriodOf, MinDelayNs;
      var level := MaxRateLevel(h);
      var activateChg, rateChg := false, false;
      if h in levels {
        if level != STOP {
          if levels[h] != level {
            rateChg := true;
          }
          levels := levels[h := level];
        } else {
          activateChg := true;
          levels := levels - {h};
        }
      } else if level != STOP {
        activateChg, rateChg := true, true;
        levels := levels[h := level];
      }
      var period := PeriodOf(h in subs, h, level);
      ret := 0;
      if level != STOP {
        if rateChg {
          ret := manager.Batch(conn, h, period, 0, c.batch);
        }
        if activateChg {
          ret := manager.Activate(conn, h, true, c.rebatch, c.activate);
        }
      } else if activateChg {
        ret := manager.Activate(conn, h, false, c.rebatch, c.activate);
      }
    }

    method AddDirectChannel(mem: Memory) returns (ret: int)
      requires Valid()
      modifies this`channels, this`next
      ensures Valid() && Now() == Added(old(Now()), mem)
      ensures ret == match mem case InUse => BAD_VALUE case Mapped => old(next) case Refused(error) => error
    {
      match mem {
        case InUse => return BAD_VALUE;
        case Mapped =>
          ret := next;
          next := next + 1;
          channels := channels + {ret};
        case Refused(error) => return error;
      }
    }

    // Erases the channel from every sensor and collects those left without subscribers.
    method EraseChannel(ch: int, hs: seq<int>) returns (sensorToStop: seq<int>)
      requires AllOf(hs, subs)
      modifies this`subs
      ensures subs == Erased(old(subs), ch)
      ensures sensorToStop == ToStop(old(subs), ch, hs)
    {
      hide HasKey, Remove, Erased, ToStop, AllOf;
      sensorToStop := [];
      ghost var before := subs;
      ErasedUpToStart(before, ch, hs);
      for i := 0 to |hs|
        invariant sensorToStop == ToStop(before, ch, hs[..i])
        invariant ErasedUpTo(before, subs, ch, hs, i)
      {
        var h := hs[i];
        ErasedUpToStep(before, subs, ch, hs, i);
        ToStopStep(before, ch, hs, i);
        if HasKey(subs[h], ch) && Remove(subs[h], ch) == [] {
          sensorToStop := sensorToStop + [h];
        }
        subs := subs[h := Remove(subs[h], ch)];
      }
      ErasedUpToEnd(before, subs, ch, hs);
      assert hs[..|hs|] == hs;
    }

    method StopAllDirectReportOnChannel(ch: int, calls: int -> Calls) returns (ret: int)
      requires Valid() && subs.Keys == START.subs.Keys
      modifies this`subs, this`levels, manager
      ensures Valid() && Now() == Stopped(Env(), old(Now()), ch, calls)
      ensures ret == StopResult(Env(), old(Now()), ch, calls)
    {
      hide Merged, MergeResult, ToStop, Erased, AllOf;
      if ch !in channels {
        return BAD_VALUE;
      }
      HandlesAreAll(subs);
      var sensorToStop := EraseChannel(ch, HANDLES);
      ret := 0;
      ghost var w0 := Now();
      for i := 0 to |sensorToStop|
        invariant Valid() && Now() == MergedAll(Env(), w0, sensorToStop[..i], calls)
        invariant ret == LastResult(Env(), w0, sensorToStop[..i], calls)
      {
        assert sensorToStop[..i + 1][..i] == sensorToStop[..i];
        ret := MergeDirectReportRequest(sensorToStop[i], calls(sensorToStop[i]));
      }
      assert sensorToStop[..|sensorToStop|] == sensorToStop;
    }

    method RemoveDirectChannel(ch: int, calls: int -> Calls) returns (ret: int)
      requires Valid() && subs.Keys == START.subs.Keys
      modifies this, manager
      ensures Valid() && Now() == Removed(Env(), old(Now()), ch, calls) && ret == 0
    {
      hide Stopped;
      var stopped := StopAllDirectReportOnChannel(ch, calls);
      channels := channels - {ch};
      return 0;
    }

    method ConfigDirectReport(h: int, ch: int, rateLevel: int, calls: int -> Calls) returns (ret: int)
      requires Valid() && subs.Keys == START.subs.Keys
      modifies this`subs, this`levels, manager
      ensures Valid() && Now() == Configured(Env(), old(Now()), h, ch, rateLevel, calls)
      ensures ret == ConfigResult(Env(), old(Now()), h, ch, rateLevel, calls)
    {
      hide Stopped, StopResult, Merged, MergeResult, Add, Remove;
      if h == -1 && rateLevel == STOP {
        ret := StopAllDirectReportOnChannel(ch, calls);
        return;
      }
      var level := rateLevel;
      if level > FAST {
        level := FAST;
      }
      if ch !in channels || h !in subs {
        return BAD_VALUE;
      }
      subs := subs[h := Remove(subs[h], ch)];
      if level != STOP {
        subs := subs[h := Add(IntLess, subs[h], ch, level)];
      }
      assert subs == Subscribed(old(Now()).d, h, ch, level).subs;
      ret := MergeDirectReportRequest(h, calls(h));
      if level == STOP {
        ret := 0;
      } else {
        ret := if ret < 0 then ret else h + ID_OFFSET;
      }
    }
  }
}
