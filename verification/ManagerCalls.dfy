// What the answers of batch and activate tell their caller, and the floor under everything the
// driver is programmed with.
module ManagerCalls {
  import opened Basics
  import opened KeyedVector
  import opened SensorManager
  import opened Arbitration

  // ---------------------------------------------------------------- answers

  // A batch is accepted exactly if the client is registered afterwards, with what it asked for;
  // a refused one is answered with the driver's error.
  lemma BatchAnswers(s: Sensor, c: Conn, p: Params, result: int)
    requires Folded(s)
    ensures var s', answer := Batched(s, c, p, result), BatchResult(s, c, p, result);
      && (answer >= 0 ==> Lookup(s'.clients, c) == Some(p))
      && (answer < 0 ==> Lookup(s'.clients, c) == None && answer == result)
      && forall d | d != c :: Lookup(s'.clients, d) == Lookup(s.clients, d)
  {
    hide Best, Add, Remove, Lookup;
    ApplyKeepsFolded(s, BatchOp(c, p, result));
    AddedIsFound(s.clients, c, p);
    ClientsAfterAdd(s.clients, c, p);
    ClientsAfterRemove(Add(ConnLess, s.clients, c, p), c);
    ConnLessIsOrder();
    forall d | d != c ensures Lookup(Batched(s, c, p, result).clients, d) == Lookup(s.clients, d) {
      SameLookup(ConnLess, s.clients, Batched(s, c, p, result).clients, d);
    }
  }

  // For a registered client: enabling answers 0 exactly if it is registered still, and disabling
  // exactly if the driver was not called or accepted the call; any other answer is the driver's.
  lemma ActivateAnswers(s: Sensor, c: Conn, enable: bool, batchResult: int, result: int)
    requires Folded(s) && HasKey(s.clients, c)
    ensures var s', answer := Activated(s, c, enable, batchResult, result), ActivateResult(s, c, enable, result);
      && (enable ==> (answer == 0 <==> HasKey(s'.clients, c)))
      && (!enable ==> !HasKey(s'.clients, c) && (answer == 0 <==> |s.clients| > 1 || result == 0))
      && (answer != 0 ==> answer == result && |s.clients| == 1)
  {
    hide Best, Remove, HasKey;
    ClientsAfterRemove(s.clients, c);
    RemoveSize(s.clients, c);
    KeyIsGone(s.clients, c);
  }

  lemma KeyIsGone(cs: Clients, c: Conn)
    requires Sorted(ConnLess, cs)
    ensures !HasKey(Remove(cs, c), c)
  {
    hide Remove;
    ClientsAfterRemove(cs, c);
    forall i | 0 <= i < |Remove(cs, c)| ensures Remove(cs, c)[i].key != c {
      assert Remove(cs, c)[i] in Remove(cs, c);
    }
  }

  // A client that is not registered is answered 0, and nothing happens.
  lemma UnregisteredIsIgnored(s: Sensor, c: Conn, enable: bool, batchResult: int, result: int)
    requires !HasKey(s.clients, c)
    ensures ActivateResult(s, c, enable, result) == 0 && Activated(s, c, enable, batchResult, result) == s
  {
  }

  // ---------------------------------------------------------------- every run of the manager

  datatype ManagerCall =
    | BatchCall(c: Conn, h: int, period: int, latency: int, result: int)
    | ActivateCall(c: Conn, h: int, enable: bool, batchResult: int, result: int)

  function Called(list: seq<(int, int)>, m: Sensors, call: ManagerCall): Sensors {
    match call
    case BatchCall(c, h, period, latency, result) =>
      BatchAt(m, c, h, Params(Clamp(MinDelayNs(list, h), period), latency), result)
    case ActivateCall(c, h, enable, batchResult, result) => ActivateAt(m, c, h, enable, batchResult, result)
  }

  function AfterCalls(list: seq<(int, int)>, calls: seq<ManagerCall>): Sensors {
    if calls == [] then map h | h in Handles(list) :: IDLE
    else Called(list, AfterCalls(list, calls[..|calls| - 1]), calls[|calls| - 1])
  }

  // No request is below d, and the driver was never told less.
  ghost predicate AboveFloor(s: Sensor, d: int) {
    && Folded(s)
    && (forall x | x in s.clients :: x.value.period >= d)
    && (s.driver.programmed == NONE || s.driver.programmed.period >= d)
  }

  lemma BestAboveFloor(cs: Clients, d: int)
    requires cs != [] && forall x | x in cs :: x.value.period >= d
    ensures Best(cs).period >= d
  {
    BestIsFold(cs);
    FoldIsElement(Periods(cs));
    var i :| 0 <= i < |cs| && Periods(cs)[i] == Fold(Periods(cs));
    assert cs[i] in cs;
  }

  lemma ApplyAboveFloor(s: Sensor, op: SensorOp, d: int)
    requires AboveFloor(s, d) && (op.BatchOp? ==> op.p.period >= d)
    ensures AboveFloor(Apply(s, op), d)
  {
    hide Best, Add, Remove, HasKey;
    ApplyKeepsFolded(s, op);
    ClientsAfterRemove(s.clients, op.c);
    if Remove(s.clients, op.c) != [] {
      BestAboveFloor(Remove(s.clients, op.c), d);
    }
    if op.BatchOp? {
      var cs := Add(ConnLess, s.clients, op.c, op.p);
      ClientsAfterAdd(s.clients, op.c, op.p);
      ClientsAfterRemove(cs, op.c);
      BestAboveFloor(cs, d);
    }
  }

  // In every run of calls to a new manager, with any requests and any answers of the driver: no
  // sensor is ever programmed with a period below its minimum delay.
  lemma {:induction false} FloorIsKept(list: seq<(int, int)>, calls: seq<ManagerCall>, h: int, i: int)
    requires FirstFor(list, h, i) && list[i].1 > 0
    ensures var m := AfterCalls(list, calls); h in m && AboveFloor(m[h], 1000 * list[i].1)
  {
    hide MinDelayNs, Apply, AboveFloor, Clamp, Batched, Activated;
    if calls == [] {
      HandleHasFirst(list, h);
      IdleAboveFloor(1000 * list[i].1);
    } else {
      var n, d := |calls| - 1, 1000 * list[i].1;
      FloorIsKept(list, calls[..n], h, i);
      var s := AfterCalls(list, calls[..n])[h];
      match calls[n] {
        case BatchCall(c, k, period, latency, result) =>
          if k == h {
            ClampIsFloored(list, h, period);
            ApplyBatch(s, BatchOp(c, Params(Clamp(MinDelayNs(list, h), period), latency), result), d);
          }
        case ActivateCall(c, k, enable, batchResult, result) =>
          if k == h {
            ApplyBatch(s, ActivateOp(c, enable, batchResult, result), d);
          }
      }
    }
  }

  lemma ApplyBatch(s: Sensor, op: SensorOp, d: int)
    requires AboveFloor(s, d) && (op.BatchOp? ==> op.p.period >= d)
    ensures match op
      case BatchOp(c, p, result) => AboveFloor(Batched(s, c, p, result), d)
      case ActivateOp(c, enable, batchResult, result) => AboveFloor(Activated(s, c, enable, batchResult, result), d)
  {
    ApplyAboveFloor(s, op, d);
  }

  lemma IdleAboveFloor(d: int)
    ensures AboveFloor(IDLE, d)
  {
    IdleBest();
  }
}
