// What the sensor manager promises over whole runs of batch and activate on one sensor.
module Arbitration {
  import opened Basics
  import opened KeyedVector
  import opened SensorManager

  // ---------------------------------------------------------------- the fold

  function Fold(ds: seq<int>): int {
    if ds == [] then -1 else Better(Fold(ds[..|ds| - 1]), ds[|ds| - 1])
  }

  predicate IsMinimum(ds: seq<int>, m: int) {
    m in ds && forall d | d in ds :: m <= d
  }

  lemma {:induction false} FoldIsElement(ds: seq<int>)
    requires ds != []
    ensures Fold(ds) in ds
  {
    var front := ds[..|ds| - 1];
    assert ds == front + [ds[|ds| - 1]];
    if front != [] {
      FoldIsElement(front);
    }
  }

  // The pass treats -1 as "nothing yet", so it returns the minimum exactly when the minimum
  // is not -1, or the last client is the one that asks for -1.
  lemma {:induction false} FoldIsMinimumIff(ds: seq<int>, m: int)
    requires IsMinimum(ds, m)
    ensures Fold(ds) == m <==> m != -1 || ds[|ds| - 1] == -1
  {
    var front, last := ds[..|ds| - 1], ds[|ds| - 1];
    assert ds == front + [last];
    if front != [] {
      FoldIsElement(front);
      var n := MinimumOf(front);
      FoldIsMinimumIff(front, n);
      assert n in ds && last in ds && (m in front || m == last);
    } else {
      assert ds == [last] && Fold(front) == -1;
    }
  }

  lemma {:induction false} MinimumOf(ds: seq<int>) returns (m: int)
    requires ds != []
    ensures IsMinimum(ds, m)
  {
    var front, last := ds[..|ds| - 1], ds[|ds| - 1];
    assert ds == front + [last];
    if front == [] {
      m := last;
    } else {
      m := MinimumOf(front);
      if last < m {
        m := last;
      }
    }
  }

  function Periods(cs: Clients): seq<int> { seq(|cs|, i requires 0 <= i < |cs| => cs[i].value.period) }
  function Latencies(cs: Clients): seq<int> { seq(|cs|, i requires 0 <= i < |cs| => cs[i].value.latency) }

  lemma {:induction false} BestIsFold(cs: Clients)
    ensures Best(cs) == Params(Fold(Periods(cs)), Fold(Latencies(cs)))
  {
    if cs != [] {
      var front := cs[..|cs| - 1];
      assert Periods(cs)[..|cs| - 1] == Periods(front);
      assert Latencies(cs)[..|cs| - 1] == Latencies(front);
      BestIsFold(front);
    }
  }

  ghost predicate NonNegative(p: Params) { p.period >= 0 && p.latency >= 0 }

  ghost predicate AllNonNegative(cs: Clients) { forall e | e in cs :: NonNegative(e.value) }

  // best is the component-wise minimum of the registered requests, and NONE just when
  // nobody is registered.
  ghost predicate IsBestOf(best: Params, cs: Clients) {
    && (cs == [] <==> best == NONE)
    && (cs != [] ==> IsMinimum(Periods(cs), best.period) && IsMinimum(Latencies(cs), best.latency))
  }

  lemma BestIsMinimum(cs: Clients)
    requires AllNonNegative(cs)
    ensures IsBestOf(Best(cs), cs)
  {
    BestIsFold(cs);
    if cs != [] {
      var m := MinimumOf(Periods(cs));
      var n := MinimumOf(Latencies(cs));
      var i :| 0 <= i < |cs| && Periods(cs)[i] == m;
      var j :| 0 <= j < |cs| && Latencies(cs)[j] == n;
      assert cs[i] in cs && cs[j] in cs;
      FoldIsMinimumIff(Periods(cs), m);
      FoldIsMinimumIff(Latencies(cs), n);
    }
  }

  lemma BestBelow(cs: Clients, e: Entry<Conn, Params>)
    requires AllNonNegative(cs) && e in cs
    ensures Best(cs).period <= e.value.period && Best(cs).latency <= e.value.latency
    ensures NonNegative(Best(cs))
  {
    BestIsMinimum(cs);
    var i :| 0 <= i < |cs| && cs[i] == e;
    assert Periods(cs)[i] == e.value.period && Latencies(cs)[i] == e.value.latency;
    var j :| 0 <= j < |cs| && Periods(cs)[j] == Best(cs).period;
    var k :| 0 <= k < |cs| && Latencies(cs)[k] == Best(cs).latency;
    assert cs[j] in cs && cs[k] in cs;
  }

  // Two requests of which one is -1: the cached value is not the minimum.
  lemma NegativeRequestIsLost()
    ensures Best([Entry(1, Params(-1, 0)), Entry(2, Params(5, 0))]) == Params(5, 0)
  {
    var cs: Clients := [Entry(1, Params(-1, 0)), Entry(2, Params(5, 0))];
    var one: Clients := [cs[0]];
    assert cs[..1] == one && one[..0] == [];
  }

  // ---------------------------------------------------------------- one sensor, every run

  datatype SensorOp =
    | BatchOp(c: Conn, p: Params, result: int)
    | ActivateOp(c: Conn, enable: bool, batchResult: int, result: int)

  function Apply(s: Sensor, op: SensorOp): Sensor {
    match op
    case BatchOp(c, p, result) => Batched(s, c, p, result)
    case ActivateOp(c, enable, batchResult, result) => Activated(s, c, enable, batchResult, result)
  }

  function Run(ops: seq<SensorOp>): Sensor {
    if ops == [] then IDLE else Apply(Run(ops[..|ops| - 1]), ops[|ops| - 1])
  }

  lemma ConnLessIsOrder()
    ensures StrictOrder(ConnLess)
  {
  }

  // The cache is the fold of the registered requests, whatever they are.
  ghost predicate Folded(s: Sensor) {
    Sorted(ConnLess, s.clients) && s.best == Best(s.clients)
  }

  // The driver runs with the cached best whenever somebody is registered.
  ghost predicate Programmed(s: Sensor) {
    s.clients != [] ==> s.driver.programmed == s.best
  }

  lemma ClientsAfterAdd(cs: Clients, c: Conn, p: Params)
    requires Sorted(ConnLess, cs)
    ensures var cs' := Add(ConnLess, cs, c, p);
      && Sorted(ConnLess, cs') && Entry(c, p) in cs' && cs' != []
      && forall e :: e in cs' <==> e == Entry(c, p) || (e in cs && e.key != c)
  {
    ConnLessIsOrder();
    AddIsUpdate(ConnLess, cs, c, p);
  }

  lemma ClientsAfterRemove(cs: Clients, c: Conn)
    requires Sorted(ConnLess, cs)
    ensures var cs' := Remove(cs, c);
      && Sorted(ConnLess, cs')
      && forall e :: e in cs' <==> e in cs && e.key != c
  {
    ConnLessIsOrder();
    RemoveIsDelete(ConnLess, cs, c);
  }

  lemma ApplyKeepsFolded(s: Sensor, op: SensorOp)
    requires Folded(s)
    ensures Folded(Apply(s, op))
  {
    hide Best, Add, Remove;
    ClientsAfterRemove(s.clients, op.c);
    if op.BatchOp? {
      ClientsAfterAdd(s.clients, op.c, op.p);
      ClientsAfterRemove(Add(ConnLess, s.clients, op.c, op.p), op.c);
    }
  }

  lemma ApplyKeepsNonNegative(s: Sensor, op: SensorOp)
    requires Folded(s) && AllNonNegative(s.clients)
    requires op.BatchOp? ==> NonNegative(op.p)
    ensures AllNonNegative(Apply(s, op).clients)
  {
    hide Best, Add, Remove;
    ClientsAfterRemove(s.clients, op.c);
    if op.BatchOp? {
      ClientsAfterAdd(s.clients, op.c, op.p);
      ClientsAfterRemove(Add(ConnLess, s.clients, op.c, op.p), op.c);
    }
  }

  // The driver's batch calls made by this step succeed.
  predicate BatchSucceeds(op: SensorOp) {
    match op
    case BatchOp(_, _, result) => result >= 0
    case ActivateOp(_, _, batchResult, _) => batchResult >= 0
  }

  lemma ApplyKeepsProgrammed(s: Sensor, op: SensorOp)
    requires Folded(s) && AllNonNegative(s.clients) && Programmed(s)
    requires op.BatchOp? ==> NonNegative(op.p)
    requires BatchSucceeds(op)
    ensures Programmed(Apply(s, op))
  {
    hide Best, Add, Remove;
    BestIsMinimum(s.clients);
    ClientsAfterRemove(s.clients, op.c);
    if op.BatchOp? {
      var cs := Add(ConnLess, s.clients, op.c, op.p);
      ClientsAfterAdd(s.clients, op.c, op.p);
      assert AllNonNegative(cs);
      BestIsMinimum(cs);
    } else if |s.clients| == 1 {
      OnlyClient(s.clients, op.c);
    }
  }

  lemma OnlyClient(cs: Clients, c: Conn)
    requires |cs| == 1
    ensures HasKey(cs, c) <==> cs[0].key == c
    ensures HasKey(cs, c) ==> Remove(cs, c) == []
  {
  }

  // After every run of batch and activate with non-negative requests the cache is the
  // component-wise minimum over the registered clients; if the driver's batch calls succeed
  // it is also what the driver was last told, although batch only sends changes.
  lemma {:induction false} CacheIsMinimumAndSent(ops: seq<SensorOp>)
    requires forall i | 0 <= i < |ops| :: ops[i].BatchOp? ==> NonNegative(ops[i].p)
    ensures var s := Run(ops);
      && Folded(s) && AllNonNegative(s.clients) && IsBestOf(s.best, s.clients)
      && ((forall i | 0 <= i < |ops| :: BatchSucceeds(ops[i])) ==> Programmed(s))
  {
    hide Best, Apply, IsBestOf;
    if ops == [] {
      assert Best([]) == NONE by { IdleBest(); }
    } else {
      var front, op := ops[..|ops| - 1], ops[|ops| - 1];
      CacheIsMinimumAndSent(front);
      ApplyKeepsFolded(Run(front), op);
      ApplyKeepsNonNegative(Run(front), op);
      if forall i | 0 <= i < |ops| :: BatchSucceeds(ops[i]) {
        assert forall i | 0 <= i < |front| :: BatchSucceeds(front[i]) by {
          assert forall i | 0 <= i < |front| :: front[i] == ops[i];
        }
        ApplyKeepsProgrammed(Run(front), op);
      }
    }
    BestIsMinimum(Run(ops).clients);
  }

  lemma IdleBest()
    ensures Best([]) == NONE
  {
  }

  // ---------------------------------------------------------------- what a sensor keeps

  ghost predicate SensorOk(s: Sensor) {
    Folded(s) && AllNonNegative(s.clients) && Programmed(s)
  }

  // No connection but c sees its own registration change.
  ghost predicate OthersSame(s: Sensor, s': Sensor, c: Conn) {
    forall d | d != c :: Lookup(s'.clients, d) == Lookup(s.clients, d)
  }

  lemma BatchedOk(s: Sensor, c: Conn, p: Params, result: int)
    requires SensorOk(s) && NonNegative(p) && result >= 0
    ensures SensorOk(Batched(s, c, p, result))
    ensures Lookup(Batched(s, c, p, result).clients, c) == Some(p)
    ensures OthersSame(s, Batched(s, c, p, result), c)
  {
    hide Best, Add, Lookup;
    var op := BatchOp(c, p, result);
    ApplyKeepsFolded(s, op);
    ApplyKeepsNonNegative(s, op);
    ApplyKeepsProgrammed(s, op);
    ClientsAfterAdd(s.clients, c, p);
    ConnLessIsOrder();
    LookupIn(ConnLess, Batched(s, c, p, result).clients, Entry(c, p));
    forall d | d != c ensures Lookup(Batched(s, c, p, result).clients, d) == Lookup(s.clients, d) {
      SameLookup(ConnLess, s.clients, Batched(s, c, p, result).clients, d);
    }
  }

  lemma ActivatedOk(s: Sensor, c: Conn, enable: bool, batchResult: int, result: int)
    requires SensorOk(s) && batchResult >= 0
    ensures SensorOk(Activated(s, c, enable, batchResult, result))
    ensures enable && result == 0 ==> Activated(s, c, enable, batchResult, result).clients == s.clients
    ensures !enable ==> Lookup(Activated(s, c, enable, batchResult, result).clients, c) == None
    ensures OthersSame(s, Activated(s, c, enable, batchResult, result), c)
  {
    hide Best, Remove, Lookup, HasKey;
    var op := ActivateOp(c, enable, batchResult, result);
    ApplyKeepsFolded(s, op);
    ApplyKeepsNonNegative(s, op);
    ApplyKeepsProgrammed(s, op);
    ClientsAfterRemove(s.clients, c);
    forall d | d != c ensures Lookup(Activated(s, c, enable, batchResult, result).clients, d) == Lookup(s.clients, d) {
      SameLookup(ConnLess, s.clients, Activated(s, c, enable, batchResult, result).clients, d);
    }
  }

  // The registered request bounds what the driver runs with.
  lemma DriverServes(s: Sensor, c: Conn)
    requires SensorOk(s) && Lookup(s.clients, c).Some?
    ensures s.driver.programmed.period <= Lookup(s.clients, c).value.period
    ensures s.driver.programmed.latency <= Lookup(s.clients, c).value.latency
  {
    var p := Lookup(s.clients, c).value;
    var i :| 0 <= i < |s.clients| && s.clients[i] == Entry(c, p);
    BestBelow(s.clients, Entry(c, p));
  }

  // ---------------------------------------------------------------- switching the driver

  // The driver is on exactly when somebody is registered.
  ghost predicate Synced(s: Sensor) {
    s.driver.on <==> s.clients != []
  }

  // A client's first batch together with the activate(true) that follows it.
  function Attached(s: Sensor, c: Conn, p: Params, batchResult: int, result: int): Sensor {
    Activated(Batched(s, c, p, batchResult), c, true, 0, result)
  }

  datatype ClientStep =
    | Attach(c: Conn, p: Params, batchResult: int, result: int)
    | Change(c: Conn, p: Params, batchResult: int)
    | Reenable(c: Conn, result: int)
    | Detach(c: Conn, batchResult: int, result: int)

  // A connection attaches while it is not registered and does everything else while it is;
  // a detach of an unregistered connection is allowed and does nothing.
  predicate InOrder(s: Sensor, step: ClientStep) {
    match step
    case Attach(c, _, _, _) => !HasKey(s.clients, c)
    case Change(c, _, _) => HasKey(s.clients, c)
    case Reenable(c, _) => HasKey(s.clients, c)
    case Detach(_, _, _) => true
  }

  function Stepped(s: Sensor, step: ClientStep): Sensor {
    match step
    case Attach(c, p, batchResult, result) => Attached(s, c, p, batchResult, result)
    case Change(c, p, batchResult) => Batched(s, c, p, batchResult)
    case Reenable(c, result) => Activated(s, c, true, 0, result)
    case Detach(c, batchResult, result) => Activated(s, c, false, batchResult, result)
  }

  function SteppedAt(m: Sensors, h: int, step: ClientStep): Sensors {
    if h in m then m[h := Stepped(m[h], step)] else m
  }

  // The driver rejects the call that the only registered client causes: its changed request,
  // its second enable or its disable.
  predicate LosesDriver(s: Sensor, step: ClientStep) {
    |s.clients| == 1 && HasKey(s.clients, step.c) &&
    match step
    case Attach(_, _, _, _) => false
    case Change(c, p, batchResult) => batchResult < 0 && Best([Entry(c, p)]) != s.best
    case Reenable(_, result) => result != 0
    case Detach(_, _, result) => result != 0
  }

  lemma KeysAfterAdd(cs: Clients, c: Conn, p: Params)
    requires Sorted(ConnLess, cs)
    ensures var cs' := Add(ConnLess, cs, c, p);
      && HasKey(cs', c)
      && |cs'| == (if HasKey(cs, c) then |cs| else |cs| + 1)
      && (!HasKey(cs, c) ==> Remove(cs', c) == cs)
      && (|cs| == 1 && HasKey(cs, c) ==> cs' == [Entry(c, p)])
      && (|cs| > 1 && HasKey(cs, c) ==> Remove(cs', c) != [])
  {
    AddedIsThere(cs, c, p);
    AddSize(cs, c, p);
  }

  lemma {:induction false} AddSize(cs: Clients, c: Conn, p: Params)
    requires Sorted(ConnLess, cs)
    ensures var cs' := Add(ConnLess, cs, c, p);
      && |cs'| == (if HasKey(cs, c) then |cs| else |cs| + 1)
      && (!HasKey(cs, c) ==> Remove(cs', c) == cs)
      && (|cs| == 1 && HasKey(cs, c) ==> cs' == [Entry(c, p)])
      && (|cs| > 1 && HasKey(cs, c) ==> Remove(cs', c) != [])
  {
    if cs != [] {
      var rest := cs[1..];
      assert cs == [cs[0]] + rest;
      assert HasKey(cs, c) <==> cs[0].key == c || HasKey(rest, c) by { HasKeyCons(cs, c); }
      if cs[0].key == c {
        assert !HasKey(rest, c);
      } else if c < cs[0].key {
        assert forall i | 0 <= i < |cs| :: c < cs[i].key by {
          assert forall i | 0 < i < |cs| :: ConnLess(cs[0].key, cs[i].key);
        }
      } else {
        AddSize(rest, c, p);
      }
    }
  }

  lemma HasKeyCons(cs: Clients, c: Conn)
    requires cs != []
    ensures HasKey(cs, c) <==> cs[0].key == c || HasKey(cs[1..], c)
  {
    if HasKey(cs, c) && cs[0].key != c {
      var i :| 0 <= i < |cs| && cs[i].key == c;
      assert cs[1..][i - 1].key == c;
    }
    if HasKey(cs[1..], c) {
      var i :| 0 <= i < |cs[1..]| && cs[1..][i].key == c;
      assert cs[i + 1].key == c;
    }
  }

  lemma {:induction false} RemoveSize(cs: Clients, c: Conn)
    requires Sorted(ConnLess, cs)
    ensures |Remove(cs, c)| == if HasKey(cs, c) then |cs| - 1 else |cs|
  {
    if cs != [] {
      HasKeyCons(cs, c);
      if cs[0].key != c {
        RemoveSize(cs[1..], c);
      }
    }
  }

  // One step keeps driver and registrations in step exactly when it does not lose the driver.
  lemma StepSyncedIff(s: Sensor, step: ClientStep)
    requires Folded(s) && Synced(s) && InOrder(s, step)
    ensures Synced(Stepped(s, step)) <==> !LosesDriver(s, step)
  {
    hide Best, Add, Remove, HasKey, Sorted;
    var cs := s.clients;
    RemoveSize(cs, step.c);
    match step {
      case Attach(c, p, _, _) =>
        KeysAfterAdd(cs, c, p);
        RemoveSize(cs, c);
        NoKeyInNothing(c);
        ClientsAfterAdd(cs, c, p);
        RemoveSize(Add(ConnLess, cs, c, p), c);
      case Change(c, p, _) =>
        KeysAfterAdd(cs, c, p);
        ClientsAfterAdd(cs, c, p);
        RemoveSize(Add(ConnLess, cs, c, p), c);
        NoKeyInNothing(c);
      case Reenable(c, _) =>
      case Detach(c, _, _) => NoKeyInNothing(c);
    }
  }

  lemma NoKeyInNothing(c: Conn)
    ensures !HasKey<Conn, Params>([], c)
  {
  }

  function Steps(steps: seq<ClientStep>): Sensor {
    if steps == [] then IDLE else Stepped(Steps(steps[..|steps| - 1]), steps[|steps| - 1])
  }

  lemma TakeKeepsFolded(s: Sensor, step: ClientStep)
    requires Folded(s)
    ensures Folded(Stepped(s, step))
  {
    hide Batched, Activated;
    match step {
      case Attach(c, p, batchResult, result) =>
        ApplyKeepsFolded(s, BatchOp(c, p, batchResult));
        ApplyKeepsFolded(Batched(s, c, p, batchResult), ActivateOp(c, true, 0, result));
      case Change(c, p, batchResult) => ApplyKeepsFolded(s, BatchOp(c, p, batchResult));
      case Reenable(c, result) => ApplyKeepsFolded(s, ActivateOp(c, true, 0, result));
      case Detach(c, batchResult, result) => ApplyKeepsFolded(s, ActivateOp(c, false, batchResult, result));
    }
  }

  // ---------------------------------------------------------------- all sensors

  ghost predicate AllSynced(m: Sensors) {
    forall h | h in m :: Synced(m[h])
  }

  lemma StepKeepsSynced(m: Sensors, h: int, step: ClientStep)
    requires (forall k | k in m :: Folded(m[k])) && AllSynced(m)
    requires h in m ==> InOrder(m[h], step) && !LosesDriver(m[h], step)
    ensures AllSynced(SteppedAt(m, h, step))
  {
    hide Stepped, InOrder, LosesDriver, Folded, Synced;
    if h in m {
      StepSyncedIff(m[h], step);
    }
  }

  // Requests are non-negative and the driver accepts the batch calls, except a first one.
  ghost predicate StepAccepted(step: ClientStep) {
    match step
    case Attach(_, p, _, _) => NonNegative(p)
    case Change(_, p, batchResult) => NonNegative(p) && batchResult >= 0
    case Reenable(_, _) => true
    case Detach(_, batchResult, _) => batchResult >= 0
  }

  // A step of another client keeps the sensor in order, and every other registration.
  lemma StepOk(s: Sensor, step: ClientStep)
    requires SensorOk(s) && InOrder(s, step) && StepAccepted(step)
    ensures SensorOk(Stepped(s, step)) && OthersSame(s, Stepped(s, step), step.c)
  {
    hide Lookup, Batched, Activated;
    match step {
      case Attach(c, p, batchResult, result) =>
        if batchResult >= 0 {
          BatchedOk(s, c, p, batchResult);
          ActivatedOk(Batched(s, c, p, batchResult), c, true, 0, result);
        } else {
          RefusedAttach(s, c, p, batchResult, result);
          var s' := Batched(s, c, p, 0);
          BatchedOk(s, c, p, 0);
          ActivatedOk(s', c, true, 0, result);
        }
      case Change(c, p, batchResult) => BatchedOk(s, c, p, batchResult);
      case Reenable(c, result) => ActivatedOk(s, c, true, 0, result);
      case Detach(c, batchResult, result) => ActivatedOk(s, c, false, batchResult, result);
    }
  }

  // A first batch that the driver has to be asked for and rejects leaves no trace; one that
  // it need not be asked for is accepted whatever it would have said.
  lemma RefusedAttach(s: Sensor, c: Conn, p: Params, batchResult: int, result: int)
    requires Folded(s) && !HasKey(s.clients, c) && batchResult < 0
    ensures var s' := Attached(s, c, p, batchResult, result);
      s' == s || s' == Activated(Batched(s, c, p, 0), c, true, 0, result)
  {
    hide Best, Add, Remove, HasKey, Sorted;
    KeysAfterAdd(s.clients, c, p);
  }

  // ---------------------------------------------------------------- every run of steps

  // The driver is on although nobody is registered.
  ghost predicate Stray(s: Sensor) {
    s.driver.on && s.clients == []
  }

  // A first batch and activate that the driver accepts, while it is on for nobody.
  predicate Mends(s: Sensor, step: ClientStep) {
    s.driver.on && s.clients == [] &&
    step.Attach? && (step.batchResult >= 0 || step.p == NONE) && step.result == 0
  }

  // A driver on for nobody stays so until an attach succeeds.
  lemma StrayUntilMended(s: Sensor, step: ClientStep)
    requires Folded(s) && Stray(s) && InOrder(s, step)
    ensures if Mends(s, step) then Synced(Stepped(s, step)) else Stray(Stepped(s, step))
    ensures !LosesDriver(s, step)
  {
    NoKeyInNothing(step.c);
    if step.Attach? {
      var cs: Clients := [Entry(step.c, step.p)];
      assert cs[..0] == [] && Best([]) == NONE && Best(cs) == step.p;
      assert HasKey(cs, step.c) by { assert cs[0].key == step.c; }
      assert Remove(cs, step.c) == [];
    }
  }

  lemma LosingLeavesStray(s: Sensor, step: ClientStep)
    requires Folded(s) && Synced(s) && InOrder(s, step) && LosesDriver(s, step)
    ensures Stray(Stepped(s, step))
  {
    hide Best, Add;
    OnlyClient(s.clients, step.c);
    if step.Change? {
      KeysAfterAdd(s.clients, step.c, step.p);
      OnlyClient([Entry(step.c, step.p)], step.c);
    }
  }

  ghost predicate LostAt(steps: seq<ClientStep>, j: nat) {
    j < |steps| && LosesDriver(Steps(steps[..j]), steps[j])
  }

  ghost predicate MendedAt(steps: seq<ClientStep>, k: nat) {
    k < |steps| && Mends(Steps(steps[..k]), steps[k])
  }

  ghost predicate Mended(steps: seq<ClientStep>, j: nat) {
    exists k :: j < k && MendedAt(steps, k)
  }

  ghost predicate AllMended(steps: seq<ClientStep>) {
    forall j: nat | LostAt(steps, j) :: Mended(steps, j)
  }

  lemma AllMendedStep(steps: seq<ClientStep>)
    requires steps != []
    ensures var n := |steps| - 1;
      AllMended(steps) <==> !LostAt(steps, n) && (MendedAt(steps, n) || AllMended(steps[..n]))
  {
    hide Steps, LosesDriver, Mends;
    var n := |steps| - 1;
    var front := steps[..n];
    forall j: nat | j < n ensures LostAt(front, j) == LostAt(steps, j) && MendedAt(front, j) == MendedAt(steps, j) {
      assert front[..j] == steps[..j];
    }
    if MendedAt(steps, n) && !LostAt(steps, n) {
      forall j: nat | LostAt(steps, j) ensures Mended(steps, j) { }
    } else if LostAt(steps, n) {
      assert !Mended(steps, n);
    } else {
      SameMends(steps);
    }
  }

  lemma SameMends(steps: seq<ClientStep>)
    requires steps != [] && !MendedAt(steps, |steps| - 1)
    ensures forall j: nat | j < |steps| - 1 :: Mended(steps, j) <==> Mended(steps[..|steps| - 1], j)
  {
    hide Steps, Mends;
    var front := steps[..|steps| - 1];
    forall k: nat ensures MendedAt(front, k) <==> MendedAt(steps, k) {
      if k < |front| {
        assert front[..k] == steps[..k];
      }
    }
  }

  // In every run of the discipline, failed calls of every kind included, the driver is on
  // exactly when a client is registered if and only if each step that lost it was followed by
  // an attach that succeeded; otherwise it is on with no client.
  lemma {:induction false} DriverOnIffRegistered(steps: seq<ClientStep>)
    requires forall i | 0 <= i < |steps| :: InOrder(Steps(steps[..i]), steps[i])
    ensures Folded(Steps(steps))
    ensures Synced(Steps(steps)) <==> AllMended(steps)
    ensures Synced(Steps(steps)) || Stray(Steps(steps))
  {
    hide Stepped, InOrder, LosesDriver, Mends, Folded, Synced, Stray, AllMended;
    if steps == [] {
      StartsSynced();
    } else {
      var n := |steps| - 1;
      var front, last := steps[..n], steps[n];
      forall i | 0 <= i < n ensures front[..i] == steps[..i] && front[i] == steps[i] { }
      DriverOnIffRegistered(front);
      TakeKeepsFolded(Steps(front), last);
      AllMendedStep(steps);
      NotBoth(Steps(front));
      NotBoth(Stepped(Steps(front), last));
      if Synced(Steps(front)) {
        NotStray(Steps(front), last);
        StepSyncedIff(Steps(front), last);
        if LosesDriver(Steps(front), last) {
          LosingLeavesStray(Steps(front), last);
        }
      } else {
        StrayUntilMended(Steps(front), last);
      }
    }
  }

  lemma StartsSynced()
    ensures Folded(IDLE) && Synced(IDLE) && AllMended([])
  {
  }

  lemma NotBoth(s: Sensor)
    ensures !(Synced(s) && Stray(s))
  {
  }

  lemma NotStray(s: Sensor, step: ClientStep)
    requires Synced(s)
    ensures !Mends(s, step)
  {
  }

  // The only client's rejected disable: the driver runs for nobody.
  lemma RejectedDisableLosesDriver()
    ensures var steps := [Attach(1, Params(5, 0), 0, 0), Detach(1, 0, -1)];
      && InOrder(Steps(steps[..0]), steps[0]) && InOrder(Steps(steps[..1]), steps[1])
      && Steps(steps) == Sensor(NONE, [], Driver(true, Params(5, 0)))
  {
    var steps := [Attach(1, Params(5, 0), 0, 0), Detach(1, 0, -1)];
    var cs: Clients := [Entry(1, Params(5, 0))];
    assert cs[..0] == [] && Best(cs) == Params(5, 0);
    assert HasKey(cs, 1) by { assert cs[0].key == 1; }
    assert steps[..1] == [steps[0]] && steps[..1][..0] == [];
    NoKeyInNothing(1);
    assert Steps(steps[..1]) == Sensor(Params(5, 0), cs, Driver(true, Params(5, 0)));
  }
}
