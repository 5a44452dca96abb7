// SensorManager.cpp: many connections share one sensor. Each registers a period and a
// latency; the manager keeps the component-wise best of them and programs the driver only
// when that changes, and turns the driver on and off with the first and the last client.
module SensorManager {
  import opened Basics
  import opened KeyedVector

  // A request; (-1, -1) is the manager's "no request at all". The flags are always 0.
  datatype Params = Params(period: int, latency: int)

  const NONE: Params := Params(-1, -1)

  // Connections are pointers; only their identity and address order matter.
  type Conn = int
  type Clients = seq<Entry<Conn, Params>>

  predicate ConnLess(a: Conn, b: Conn) { a < b }

  // What the driver was last told successfully.
  datatype Driver = Driver(on: bool, programmed: Params)

  datatype Sensor = Sensor(best: Params, clients: Clients, driver: Driver)

  // addSensorsList: nobody registered and the driver told to be off.
  const IDLE: Sensor := Sensor(NONE, [], Driver(false, NONE))

  function Better(best: int, d: int): int {
    if best == -1 || d < best then d else best
  }

  // selectBatchParams: one pass over the clients in address order.
  function Best(cs: Clients): Params {
    if cs == [] then NONE
    else
      var front, p := Best(cs[..|cs| - 1]), cs[|cs| - 1].value;
      Params(Better(front.period, p.period), Better(front.latency, p.latency))
  }

  function Clamp(minDelayNs: int, period: int): int {
    if minDelayNs > 0 && period < minDelayNs then minDelayNs else period
  }

  function Program(d: Driver, p: Params, result: int): Driver {
    if result < 0 then d else d.(programmed := p)
  }

  function Switch(d: Driver, on: bool, result: int): Driver {
    if result != 0 then d else d.(on := on)
  }

  function Drop(s: Sensor, c: Conn): Sensor {
    s.(clients := Remove(s.clients, c), best := Best(Remove(s.clients, c)))
  }

  // batch() on a known sensor, with the result the driver gives if it is called.
  function Batched(s: Sensor, c: Conn, p: Params, result: int): Sensor {
    var cs := Add(ConnLess, s.clients, c, p);
    var best := Best(cs);
    var s' := s.(clients := cs, best := best);
    if best == s.best then s'
    else if result < 0 then Drop(s', c)
    else s'.(driver := Program(s.driver, best, result))
  }

  function BatchResult(s: Sensor, c: Conn, p: Params, result: int): int {
    if Best(Add(ConnLess, s.clients, c, p)) == s.best then 0 else result
  }

  // activate() on a known sensor, with the results of the driver's batch and activate.
  function Activated(s: Sensor, c: Conn, enable: bool, batchResult: int, result: int): Sensor {
    if !HasKey(s.clients, c) then s
    else if enable then
      if |s.clients| != 1 then s
      else if result != 0 then Drop(s, c)
      else s.(driver := Switch(s.driver, true, result))
    else
      var s' := Drop(s, c);
      if s'.clients == [] then s'.(driver := Switch(s.driver, false, result))
      else s'.(driver := Program(s.driver, s'.best, batchResult))
  }

  function ActivateResult(s: Sensor, c: Conn, enable: bool, result: int): int {
    if !HasKey(s.clients, c) then 0
    else if enable then (if |s.clients| == 1 then result else 0)
    else if Remove(s.clients, c) == [] then result else 0
  }

  // The whole manager: unknown handles are left alone.
  type Sensors = map<int, Sensor>

  function BatchAt(m: Sensors, c: Conn, h: int, p: Params, result: int): Sensors {
    if h in m then m[h := Batched(m[h], c, p, result)] else m
  }

  function ActivateAt(m: Sensors, c: Conn, h: int, enable: bool, batchResult: int, result: int): Sensors {
    if h in m then m[h := Activated(m[h], c, enable, batchResult, result)] else m
  }

  const ID_OFFSET: int := 1

  // getSensorMinDelayNs: the first list entry of the handle decides.
  function MinDelayNs(list: seq<(int, int)>, h: int): int {
    if list == [] then -1
    else if list[0].0 == h + ID_OFFSET then list[0].1 * 1000
    else MinDelayNs(list[1..], h)
  }

  // The first entry of the sensor, whose handle is one more than the manager's.
  predicate FirstFor(list: seq<(int, int)>, h: int, i: int) {
    0 <= i < |list| && list[i].0 == h + 1 && forall j | 0 <= j < i :: list[j].0 != h + 1
  }

  // A minimum delay of n microseconds is a floor of 1000 * n nanoseconds, if it is positive.
  lemma {:induction false} MinDelayOfFirst(list: seq<(int, int)>, h: int)
    ensures forall i | FirstFor(list, h, i) :: MinDelayNs(list, h) == 1000 * list[i].1
    ensures (forall i :: !FirstFor(list, h, i)) ==> MinDelayNs(list, h) == -1
  {
    if list != [] {
      MinDelayOfFirst(list[1..], h);
      if list[0].0 == h + 1 {
        assert FirstFor(list, h, 0);
      } else {
        forall i | 0 < i < |list| ensures FirstFor(list, h, i) <==> FirstFor(list[1..], h, i - 1) {
          FirstInRest(list, h, i);
        }
        forall i | FirstFor(list[1..], h, i) ensures FirstFor(list, h, i + 1) { }
      }
    }
  }

  lemma FirstInRest(list: seq<(int, int)>, h: int, i: int)
    requires 0 < i < |list| && list[0].0 != h + 1
    ensures FirstFor(list, h, i) <==> FirstFor(list[1..], h, i - 1)
  {
    forall j | 0 < j < |list| ensures list[j] == list[1..][j - 1] { }
    if FirstFor(list[1..], h, i - 1) {
      forall j | 0 <= j < i ensures list[j].0 != h + 1 {
        if j > 0 { assert list[1..][j - 1].0 != h + 1; }
      }
    }
  }

  // Asked for a period, the manager registers got: the period itself unless the sensor's floor
  // is above it.
  ghost predicate Floored(list: seq<(int, int)>, h: int, asked: int, got: int) {
    && ((forall i :: !FirstFor(list, h, i)) ==> got == asked)
    && forall i | FirstFor(list, h, i) ::
         && (list[i].1 > 0 ==> got >= 1000 * list[i].1)
         && (list[i].1 <= 0 || asked >= 1000 * list[i].1 ==> got == asked)
         && (got == asked || got == 1000 * list[i].1)
  }

  lemma ClampIsFloored(list: seq<(int, int)>, h: int, asked: int)
    ensures Floored(list, h, asked, Clamp(MinDelayNs(list, h), asked))
  {
    MinDelayOfFirst(list, h);
  }

  function Handles(list: seq<(int, int)>): set<int> {
    set entry | entry in list :: entry.0 - ID_OFFSET
  }

  datatype Info = Info(best: Params, clients: Clients)

  ghost function Together(infos: map<int, Info>, drivers: map<int, Driver>): Sensors
    requires drivers.Keys == infos.Keys
  {
    map h | h in infos :: Sensor(infos[h].best, infos[h].clients, drivers[h])
  }

  lemma TogetherAt(infos: map<int, Info>, drivers: map<int, Driver>, h: int, i: Info, d: Driver)
    requires drivers.Keys == infos.Keys && h in infos
    ensures Together(infos[h := i], drivers[h := d])
         == Together(infos, drivers)[h := Sensor(i.best, i.clients, d)]
    ensures Together(infos, drivers)[h] == Sensor(infos[h].best, infos[h].clients, drivers[h])
    ensures h in Together(infos, drivers) && infos[h := infos[h]] == infos && drivers[h := drivers[h]] == drivers
  {
  }

  class Manager {
    // mActivationCount and mSensorList (handle, minDelay in microseconds)
    var infos: map<int, Info>
    const sensorList: seq<(int, int)>
    ghost var drivers: map<int, Driver>

    ghost predicate Valid()
      reads this
    {
      drivers.Keys == infos.Keys
    }

    ghost function State(): Sensors
      requires Valid()
      reads this
    {
      Together(infos, drivers)
    }

    // addSensorsList
    constructor (list: seq<(int, int)>)
      ensures Valid() && sensorList == list
      ensures State() == map h | h in Handles(list) :: IDLE
      ensures forall h :: h in infos <==> exists i :: FirstFor(list, h, i)
    {
      hide FirstFor, Handles;
      forall h ensures h in Handles(list) <==> exists i :: FirstFor(list, h, i) { HandleHasFirst(list, h); }
      sensorList := list;
      infos := map h | h in Handles(list) :: Info(NONE, []);
      drivers := map h | h in Handles(list) :: Driver(false, NONE);
    }

    method GetSensorMinDelayNs(h: int) returns (d: int)
      ensures d == MinDelayNs(sensorList, h)
      ensures forall i | FirstFor(sensorList, h, i) :: d == 1000 * sensorList[i].1
      ensures (forall i :: !FirstFor(sensorList, h, i)) ==> d == -1
    {
      MinDelayOfFirst(sensorList, h);
      for i := 0 to |sensorList|
        invariant MinDelayNs(sensorList[i..], h) == MinDelayNs(sensorList, h)
      {
        assert sensorList[i..][1..] == sensorList[i + 1..];
        if sensorList[i].0 == h + ID_OFFSET {
          return sensorList[i].1 * 1000;
        }
      }
      return -1;
    }

    method SelectBatchParams(cs: Clients) returns (best: Params)
      ensures best == Best(cs)
    {
      var delay, timeout := -1, -1;
      for i := 0 to |cs|
        invariant Params(delay, timeout) == Best(cs[..i])
      {
        assert cs[..i + 1][..i] == cs[..i];
        var p := cs[i].value;
        if delay == -1 || p.period < delay {
          delay := p.period;
        }
        if timeout == -1 || p.latency < timeout {
          timeout := p.latency;
        }
      }
      assert cs[..|cs|] == cs;
      return Params(delay, timeout);
    }

    method RemoveBatchParamsForIdent(h: int, c: Conn) returns (found: bool)
      requires Valid() && h in infos
      modifies this`infos
      ensures Valid() && drivers == old(drivers)
      ensures found == HasKey(old(infos)[h].clients, c)
      ensures var cs := Remove(old(infos)[h].clients, c);
        infos == if found then old(infos)[h := Info(Best(cs), cs)] else old(infos)
    {
      found := HasKey(infos[h].clients, c);
      if found {
        var cs := Remove(infos[h].clients, c);
        var best := SelectBatchParams(cs);
        infos := infos[h := Info(best, cs)];
      }
    }

    method Batch(c: Conn, h: int, period: int, latency: int, result: int) returns (err: int)
      requires Valid()
      modifies this
      ensures Valid()
      ensures var p := Params(Clamp(MinDelayNs(sensorList, h), period), latency);
        && State() == BatchAt(old(State()), c, h, p, result)
        && err == if h in old(infos) then BatchResult(old(State())[h], c, p, result) else -1
      ensures h in old(infos) && err >= 0 ==> h in infos && Lookup(infos[h].clients, c).Some?
      ensures h in old(infos) && err >= 0 ==>
        var got := Lookup(infos[h].clients, c).value;
        got.latency == latency && Floored(sensorList, h, period, got.period)
    {
      hide Best, Add, Remove, HasKey, MinDelayNs, Together, Lookup, Floored;
      ClampIsFloored(sensorList, h, period);
      var minDelayNs := GetSensorMinDelayNs(h);
      var samplingPeriodNs := period;
      if minDelayNs > 0 && samplingPeriodNs < minDelayNs {
        samplingPeriodNs := minDelayNs;
      }
      if h !in infos {
        assert h !in State() by { NotTogether(infos, drivers, h); }
        return -1;
      }
      var p := Params(samplingPeriodNs, latency);
      var cs := Add(ConnLess, infos[h].clients, c, p);
      AddedIsFound(infos[h].clients, c, p);
      var prev := infos[h].best;
      var best := SelectBatchParams(cs);
      infos := infos[h := Info(best, cs)];
      err := 0;
      if prev != best {
        err := result;
        drivers := drivers[h := Program(drivers[h], best, result)];
        if err < 0 {
          var found := RemoveBatchParamsForIdent(h, c);
          AddedIsThere(old(infos)[h].clients, c, p);
        }
      }
      TogetherAt(old(infos), old(drivers), h, infos[h], drivers[h]);
      assert infos == old(infos)[h := infos[h]] && drivers == old(drivers)[h := drivers[h]];
    }

    method Activate(c: Conn, h: int, enabled: bool, batchResult: int, result: int) returns (err: int)
      requires Valid()
      modifies this
      ensures Valid()
      ensures State() == ActivateAt(old(State()), c, h, enabled, batchResult, result)
      ensures err == if h in old(infos) then ActivateResult(old(State())[h], c, enabled, result) else -1
    {
      hide Best, Remove, HasKey, Together;
      if h !in infos {
        assert h !in State() by { NotTogether(infos, drivers, h); }
        return -1;
      }
      var actuateHardware := false;
      if enabled {
        if HasKey(infos[h].clients, c) && |infos[h].clients| == 1 {
          actuateHardware := true;
        }
      } else {
        var found := RemoveBatchParamsForIdent(h, c);
        if found {
          if |infos[h].clients| == 0 {
            actuateHardware := true;
          } else {
            drivers := drivers[h := Program(drivers[h], infos[h].best, batchResult)];
          }
        }
      }
      err := 0;
      if actuateHardware {
        err := result;
        drivers := drivers[h := Switch(drivers[h], enabled, result)];
        if err != 0 && enabled {
          var found := RemoveBatchParamsForIdent(h, c);
        }
      }
      TogetherAt(old(infos), old(drivers), h, infos[h], drivers[h]);
      assert infos == old(infos)[h := infos[h]] && drivers == old(drivers)[h := drivers[h]];
    }
  }

  lemma NotTogether(infos: map<int, Info>, drivers: map<int, Driver>, h: int)
    requires drivers.Keys == infos.Keys && h !in infos
    ensures h !in Together(infos, drivers)
  {
  }

  lemma {:induction false} HandleHasFirst(list: seq<(int, int)>, h: int)
    ensures h in Handles(list) <==> exists i :: FirstFor(list, h, i)
  {
    if h in Handles(list) {
      var entry :| entry in list && entry.0 == h + 1;
      var i :| 0 <= i < |list| && list[i] == entry;
      var j := FirstUpTo(list, h, i);
    }
    if i :| FirstFor(list, h, i) {
      assert list[i] in list && list[i].0 - ID_OFFSET == h;
    }
  }

  lemma {:induction false} FirstUpTo(list: seq<(int, int)>, h: int, i: nat) returns (j: nat)
    requires i < |list| && list[i].0 == h + 1
    ensures FirstFor(list, h, j)
  {
    if k: nat :| k < i && list[k].0 == h + 1 {
      j := FirstUpTo(list, h, k);
    } else {
      j := i;
    }
  }

  lemma {:induction false} AddedIsFound(cs: Clients, c: Conn, p: Params)
    ensures Lookup(Add(ConnLess, cs, c, p), c) == Some(p)
  {
    if cs != [] && !(c < cs[0].key) && cs[0].key != c {
      AddedIsFound(cs[1..], c, p);
      assert Add(ConnLess, cs, c, p)[1..] == Add(ConnLess, cs[1..], c, p);
    }
  }

  lemma {:induction false} AddedIsThere(cs: Clients, c: Conn, p: Params)
    ensures HasKey(Add(ConnLess, cs, c, p), c)
  {
    var cs' := Add(ConnLess, cs, c, p);
    if cs == [] || c < cs[0].key || cs[0].key == c {
      assert cs'[0].key == c;
    } else {
      AddedIsThere(cs[1..], c, p);
      var i :| 0 <= i < |Add(ConnLess, cs[1..], c, p)| && Add(ConnLess, cs[1..], c, p)[i].key == c;
      assert cs'[i + 1].key == c;
    }
  }
}
