// What the calls on direct channels do to the subscriptions, and what their answers tell.
module DirectReports {
  import opened Basics
  import opened KeyedVector
  import opened SensorManager
  import opened Arbitration
  import opened ManagerCalls
  import opened DirectChannels
  import opened DirectRates
  import opened DirectService

  // ---------------------------------------------------------------- subscriptions

  // Merging touches nothing but the stored levels.
  lemma MergedKeeps(e: Setup, w: World, h: int, c: Calls)
    ensures Merged(e, w, h, c).d == w.d.(levels := Merged(e, w, h, c).d.levels)
  {
    hide BatchAt, ActivateAt, Asked, Level;
  }

  lemma {:induction false} MergedAllKeeps(e: Setup, w: World, hs: seq<int>, calls: int -> Calls)
    ensures MergedAll(e, w, hs, calls).d == w.d.(levels := MergedAll(e, w, hs, calls).d.levels)
  {
    hide Merged;
    if hs != [] {
      var n := |hs| - 1;
      MergedAllKeeps(e, w, hs[..n], calls);
      MergedKeeps(e, MergedAll(e, w, hs[..n], calls), hs[n], calls(hs[n]));
    }
  }

  lemma SetOrErased(es: Subs, ch: int, level: Option<int>)
    requires Sorted(IntLess, es)
    ensures var rest := Remove(es, ch);
      var es' := if level.None? then rest else Add(IntLess, rest, ch, level.value);
      && Lookup(es', ch) == level && forall x | x != ch :: Lookup(es', x) == Lookup(es, x)
  {
    hide Add, Remove, Lookup;
    IntLessIsOrder();
    var rest := Remove(es, ch);
    RemoveIsDelete(IntLess, es, ch);
    var es' := if level.None? then rest else Add(IntLess, rest, ch, level.value);
    if level.Some? {
      AddIsUpdate(IntLess, rest, ch, level.value);
      LookupIn(IntLess, es', Entry(ch, level.value));
    } else {
      forall i | 0 <= i < |rest| ensures rest[i].key != ch { assert rest[i] in rest; }
    }
    forall x | x != ch ensures Lookup(es', x) == Lookup(es, x) {
      SameLookup(IntLess, es, es', x);
    }
  }

  // A report configured for a live channel on a known sensor is subscribed to at the rate asked
  // for, but no faster than 2, and a stop ends it; no other subscription is affected.
  lemma ConfiguredSubscribes(e: Setup, w: World, h: int, ch: int, rate: int, calls: int -> Calls)
    requires Inv(e, w) && ch in w.d.channels && h in w.d.subs && (h != -1 || rate != STOP)
    ensures var d := Configured(e, w, h, ch, rate, calls).d;
      && d.subs.Keys == w.d.subs.Keys && d.channels == w.d.channels && d.next == w.d.next
      && Lookup(d.subs[h], ch) == (if rate == 0 then None else Some(Min(rate, 2)))
      && (forall x | x != ch :: Lookup(d.subs[h], x) == Lookup(w.d.subs[h], x))
      && forall k | k in w.d.subs && k != h :: d.subs[k] == w.d.subs[k]
  {
    hide Merged, Lookup, Add, Remove;
    assert SubsOk(w.d, h);
    SetOrErased(w.d.subs[h], ch, if rate == 0 then None else Some(Min(rate, 2)));
    MergedKeeps(e, w.(d := Subscribed(w.d, h, ch, ClampLevel(rate))), h, calls(h));
  }

  // With a positive rate and calls that succeed a level is stored, and where others are
  // disciplined the sensor is on, at the period of the subscription or faster.
  lemma ConfiguredStarts(e: Setup, w: World, h: int, ch: int, rate: int, calls: int -> Calls)
    requires Inv(e, w) && ch in w.d.channels && h in w.d.subs && rate > STOP && forall k :: CallsOk(calls(k))
    ensures var w' := Configured(e, w, h, ch, rate, calls);
      && Inv(e, w') && h in w'.d.levels && w'.d.levels[h] >= Min(rate, 2)
      && (Healthy(w.m) && h in w'.m ==>
            w'.m[h].driver.on && w'.m[h].driver.programmed.period <= Needed(e, h, Min(rate, 2)))
  {
    hide Configured, Lookup, Healthy, CallsOk, StateOk, RegisteredOk, Needed;
    ConfiguredOk(e, w, h, ch, rate, calls);
    ConfiguredSubscribes(e, w, h, ch, rate, calls);
    var w' := Configured(e, w, h, ch, rate, calls);
    var x := Entry(ch, Min(rate, 2));
    LookupFinds(w'.d.subs[h], ch);
    LevelAt(e, w', h);
    if Healthy(w.m) {
      ConfiguredHealthy(e, w, h, ch, rate, calls);
      HealthyServes(e, w', h, x);
    }
  }

  lemma LookupFinds(es: Subs, ch: int)
    ensures Lookup(es, ch).Some? ==> Entry(ch, Lookup(es, ch).value) in es
  {
  }

  lemma LevelAt(e: Setup, w: World, h: int)
    requires Inv(e, w)
    ensures LevelOk(w.d, h)
  {
  }

  // Stopping a channel's reports ends all of its subscriptions and no other one.
  lemma StoppedForgets(e: Setup, w: World, ch: int, calls: int -> Calls)
    requires Inv(e, w) && ch in w.d.channels
    ensures var d := Stopped(e, w, ch, calls).d;
      && d.subs.Keys == w.d.subs.Keys && d.channels == w.d.channels && d.next == w.d.next
      && forall k | k in w.d.subs :: Lookup(d.subs[k], ch) == None
           && forall x | x != ch :: Lookup(d.subs[k], x) == Lookup(w.d.subs[k], x)
  {
    hide MergedAll, Lookup, Remove, ToStop;
    MergedAllKeeps(e, w.(d := w.d.(subs := Erased(w.d.subs, ch))), ToStop(w.d.subs, ch, HANDLES), calls);
    forall k | k in w.d.subs
      ensures Lookup(Erased(w.d.subs, ch)[k], ch) == None
      ensures forall x | x != ch :: Lookup(Erased(w.d.subs, ch)[k], x) == Lookup(w.d.subs[k], x)
    {
      assert SubsOk(w.d, k);
      SetOrErased(w.d.subs[k], ch, None);
    }
  }

  // A removed channel is forgotten, and no other one.
  lemma RemovedForgets(e: Setup, w: World, ch: int, calls: int -> Calls)
    requires Inv(e, w)
    ensures var d := Removed(e, w, ch, calls).d;
      && (forall x :: x in d.channels <==> x in w.d.channels && x != ch) && d.next == w.d.next
      && d.subs.Keys == w.d.subs.Keys
      && forall k, x | k in w.d.subs && x != ch :: Lookup(d.subs[k], x) == Lookup(w.d.subs[k], x)
  {
    hide Stopped, Lookup;
    if ch in w.d.channels {
      StoppedForgets(e, w, ch, calls);
    } else {
      StoppedSame(e, w, ch, calls);
    }
  }

  // Usable memory gives a channel that was not there before; anything else changes nothing.
  lemma AddedIsNew(e: Setup, w: World, mem: Memory)
    requires Inv(e, w)
    ensures var d := Added(w, mem).d;
      && d.subs == w.d.subs && d.levels == w.d.levels && Added(w, mem).m == w.m
      && (mem != Mapped ==> d == w.d)
      && (mem == Mapped ==> w.d.next !in w.d.channels && d.next == w.d.next + 1)
      && (mem == Mapped ==> forall x :: x in d.channels <==> x in w.d.channels || x == w.d.next)
  {
  }

  // Fast is 400 events a second, for the magnetometer and its uncalibrated variant 50 as normal is.
  lemma RatesInHertz(h: int)
    ensures PeriodOf(true, h, NORMAL) * 50 == 1_000_000_000
    ensures h == 1 || h == 13 ==> PeriodOf(true, h, FAST) * 50 == 1_000_000_000
    ensures h != 1 && h != 13 ==> PeriodOf(true, h, FAST) * 400 == 1_000_000_000
  {
  }

  // ---------------------------------------------------------------- answers

  // An unknown channel or sensor is answered BAD_VALUE and changes nothing, a stop is answered 0;
  // a report on a sensor the manager has, with calls that succeed, by its public handle.
  lemma ConfigAnswers(e: Setup, w: World, h: int, ch: int, rate: int, calls: int -> Calls)
    requires h != -1 || rate != STOP
    ensures var answer := ConfigResult(e, w, h, ch, rate, calls);
      && (ch !in w.d.channels || h !in w.d.subs ==> answer == -22 && Configured(e, w, h, ch, rate, calls) == w)
      && (ch in w.d.channels && h in w.d.subs && rate == 0 ==> answer == 0)
      && (ch in w.d.channels && h in w.d.subs && rate != 0 && h in w.m && CallsOk(calls(h)) ==> answer == h + 1)
      && (ch in w.d.channels && h in w.d.subs && rate != 0 && answer >= 0 ==> answer == h + 1)
  {
    hide Batched, Best, Add, Remove, HasKey, RequestFor, Highest;
  }

  lemma StopAnswers(e: Setup, w: World, ch: int, calls: int -> Calls)
    ensures ch !in w.d.channels ==> StopResult(e, w, ch, calls) == -22 && Stopped(e, w, ch, calls) == w
  {
  }

  // The first report on a sensor is answered as started although the connection is not registered
  // exactly if the driver refused the batch, whose answer activate's replaces, or answered the
  // first activate with a positive error.
  lemma StartedInVainIff(e: Setup, w: World, h: int, ch: int, rate: int, calls: int -> Calls)
    requires Inv(e, w) && ch in w.d.channels && h in w.d.subs && h in w.m && h !in w.d.levels && rate > STOP
    requires h >= 0
    ensures var w1 := w.(d := Subscribed(w.d, h, ch, ClampLevel(rate)));
      var after := Configured(e, w, h, ch, rate, calls).m;
      && h in after
      && (ConfigResult(e, w, h, ch, rate, calls) >= 0 && !HasKey(after[h].clients, e.conn)
          <==> BatchResult(w.m[h], e.conn, Asked(e, w1.d, h), calls(h).batch) < 0
               || (w.m[h].clients == [] && calls(h).activate > 0))
  {
    hide Batched, Activated, BatchResult, ActivateResult, Lookup, RequestFor, Best, Highest, HasKey, Add, Remove;
    var w1 := w.(d := Subscribed(w.d, h, ch, ClampLevel(rate)));
    var s, p, c := w.m[h], Asked(e, w1.d, h), calls(h);
    assert RegisteredOk(e, w, h);
    SubscribedLevel(e, w, h, ch, rate);
    BatchAnswers(s, e.conn, p, c.batch);
    ApplyKeepsFolded(s, BatchOp(e.conn, p, c.batch));
    var s1 := Batched(s, e.conn, p, c.batch);
    AcceptedSize(s, e.conn, p, c.batch);
    if HasKey(s1.clients, e.conn) {
      ActivateAnswers(s1, e.conn, true, c.rebatch, c.activate);
      SoleOrError(s1, e.conn, c.rebatch, c.activate);
    } else {
      UnregisteredIsIgnored(s1, e.conn, true, c.rebatch, c.activate);
    }
  }

  // A further report on a sensor is answered with the sensor's handle exactly if the connection is
  // registered still, otherwise with the driver's error.
  lemma FurtherReportAnswers(e: Setup, w: World, h: int, ch: int, rate: int, calls: int -> Calls)
    requires Inv(e, w) && ch in w.d.channels && h in w.d.subs && h in w.m && h in w.d.levels && rate > STOP
    requires h >= 0
    ensures var answer, after := ConfigResult(e, w, h, ch, rate, calls), Configured(e, w, h, ch, rate, calls).m;
      && h in after
      && (answer == h + 1 <==> HasKey(after[h].clients, e.conn))
      && (answer != h + 1 ==> answer == calls(h).batch)
  {
    hide ActivateResult, Activated, Batched, BatchResult, Folded, Level, Subscribed, LevelOk, StateOk;
    hide PeriodOf, MinDelayNs;
    var w1 := w.(d := Subscribed(w.d, h, ch, ClampLevel(rate)));
    assert RegisteredOk(e, w, h);
    SubscribedLevel(e, w, h, ch, rate);
    BatchAnswers(w.m[h], e.conn, Asked(e, w1.d, h), calls(h).batch);
  }

  // ---------------------------------------------------------------- the answer to a full stop

  ghost predicate OnlyBy(d: State, h: int, ch: int) {
    h in d.subs && |d.subs[h]| == 1 && d.subs[h][0].key == ch
  }

  lemma SoleSubscriber(es: Subs, ch: int)
    ensures HasKey(es, ch) && Remove(es, ch) == [] <==> |es| == 1 && es[0].key == ch
  {
  }

  lemma ToStopUnfold(d: State, ch: int, hs: seq<int>)
    ensures hs == [] ==> ToStop(d.subs, ch, hs) == []
    ensures hs != [] ==>
      var n := |hs| - 1;
      ToStop(d.subs, ch, hs) == ToStop(d.subs, ch, hs[..n]) + (if OnlyBy(d, hs[n], ch) then [hs[n]] else [])
  {
    hide HasKey, Remove;
    if hs != [] && hs[|hs| - 1] in d.subs {
      SoleSubscriber(d.subs[hs[|hs| - 1]], ch);
    }
  }

  lemma {:induction false} ToStopEnds(d: State, ch: int, hs: seq<int>, i: int)
    requires -1 <= i < |hs| && (i >= 0 ==> OnlyBy(d, hs[i], ch))
    requires forall j | i < j < |hs| :: !OnlyBy(d, hs[j], ch)
    ensures i < 0 ==> ToStop(d.subs, ch, hs) == []
    ensures i >= 0 ==> ToStop(d.subs, ch, hs) == ToStop(d.subs, ch, hs[..i]) + [hs[i]]
  {
    hide ToStop, OnlyBy;
    ToStopUnfold(d, ch, hs);
    if hs != [] {
      var n := |hs| - 1;
      if i < n {
        ToStopEnds(d, ch, hs[..n], i);
        assert i >= 0 ==> hs[..n][..i] == hs[..i];
      }
    }
  }

  lemma {:induction false} MergedAllElsewhere(e: Setup, w: World, hs: seq<int>, calls: int -> Calls, k: int)
    requires k !in hs
    ensures var w' := MergedAll(e, w, hs, calls);
      && (k in w'.m <==> k in w.m) && (k in w.m ==> w'.m[k] == w.m[k])
      && (k in w'.d.levels <==> k in w.d.levels) && w'.d.subs == w.d.subs
  {
    hide Merged;
    if hs != [] {
      var n := |hs| - 1;
      MergedAllElsewhere(e, w, hs[..n], calls, k);
      MergedElsewhere(e, MergedAll(e, w, hs[..n], calls), hs[n], calls(hs[n]), k);
    }
  }

  // Stopping all reports of a channel is answered 0 if every sensor keeps a subscriber; otherwise
  // the last sensor, in the manager's order, that loses its only one decides: 0 if other clients are
  // registered for it, what the driver says to being turned off if not.
  lemma StopAllAnswers(e: Setup, w: World, ch: int, calls: int -> Calls, i: int)
    requires Inv(e, w) && ch in w.d.channels
    requires -1 <= i < |HANDLES| && (i >= 0 ==> OnlyBy(w.d, HANDLES[i], ch))
    requires forall j | i < j < |HANDLES| :: !OnlyBy(w.d, HANDLES[j], ch)
    ensures ConfigResult(e, w, -1, ch, 0, calls) ==
      if i < 0 then 0
      else if HANDLES[i] !in w.m then -1
      else if |w.m[HANDLES[i]].clients| > 1 then 0
      else calls(HANDLES[i]).activate
  {
    hide HasKey, Remove, Inv, OnlyBy, ToStop;
    ToStopEnds(w.d, ch, HANDLES, i);
    if i >= 0 {
      var h, front := HANDLES[i], ToStop(w.d.subs, ch, HANDLES[..i]);
      var w1 := w.(d := w.d.(subs := Erased(w.d.subs, ch)));
      InToStop(w.d.subs, ch, HANDLES[..i], h);
      assert h !in HANDLES[..i];
      MergedAllElsewhere(e, w1, front, calls, h);
      assert (front + [h])[..|front|] == front;
      SoleIsStopped(e, w, MergedAll(e, w1, front, calls), ch, h, calls(h));
    }
  }

  lemma SoleIsStopped(e: Setup, w: World, w': World, ch: int, h: int, c: Calls)
    requires Inv(e, w) && OnlyBy(w.d, h, ch) && w'.d.subs == Erased(w.d.subs, ch)
    requires (h in w'.m <==> h in w.m) && (h in w.m ==> w'.m[h] == w.m[h])
    requires h in w'.d.levels <==> h in w.d.levels
    ensures MergeResult(e, w', h, c) ==
      if h !in w.m then -1 else if |w.m[h].clients| > 1 then 0 else c.activate
  {
    hide SubsOk, Asked;
    SoleSubscriber(w.d.subs[h], ch);
    assert LevelOk(w.d, h) && RegisteredOk(e, w, h);
    if h in w.m {
      RemoveSize(w.m[h].clients, e.conn);
    }
  }

  // An accepted batch of a new client makes it one client more.
  lemma AcceptedSize(s: Sensor, c: Conn, p: Params, result: int)
    requires Folded(s) && !HasKey(s.clients, c)
    ensures BatchResult(s, c, p, result) >= 0 ==> |Batched(s, c, p, result).clients| == |s.clients| + 1
  {
    hide Best, Add, Remove, HasKey;
    KeysAfterAdd(s.clients, c, p);
  }

  lemma SoleOrError(s: Sensor, c: Conn, batchResult: int, result: int)
    requires HasKey(s.clients, c)
    ensures ActivateResult(s, c, true, result) == if |s.clients| == 1 then result else 0
  {
  }

  lemma SubscribedLevel(e: Setup, w: World, h: int, ch: int, rate: int)
    requires Inv(e, w) && ch in w.d.channels && h in w.d.subs && rate > STOP
    ensures var d := Subscribed(w.d, h, ch, ClampLevel(rate)); d.levels == w.d.levels && Level(d, h) != STOP
  {
    hide Add, Remove, Highest;
    assert SubsOk(w.d, h);
    SubscribedOk(w.d, h, ch, ClampLevel(rate));
    IntLessIsOrder();
    RemoveIsDelete(IntLess, w.d.subs[h], ch);
    AddIsUpdate(IntLess, Remove(w.d.subs[h], ch), ch, ClampLevel(rate));
    var d := Subscribed(w.d, h, ch, ClampLevel(rate));
    HighestIsMaximum(d.subs[h]);
    assert Entry(ch, ClampLevel(rate)) in d.subs[h];
  }

  // The driver refuses the first batch on an idle sensor: the answer is the sensor's handle, and
  // nobody is registered.
  lemma RefusedReportLooksStarted(e: Setup)
    ensures var w := Added(World(DirectChannels.START, map[0 := IDLE]), Mapped);
      var calls := (k: int) => Calls(-5, 0, 0);
      && ConfigResult(e, w, 0, 1, NORMAL, calls) == 1
      && 0 in Configured(e, w, 0, 1, NORMAL, calls).m
      && !HasKey(Configured(e, w, 0, 1, NORMAL, calls).m[0].clients, e.conn)
  {
    hide Merged, Configured, ConfigResult, Batched, Activated, HasKey;
    var w0 := World(DirectChannels.START, map[0 := IDLE]);
    var w := Added(w0, Mapped);
    var calls := (k: int) => Calls(-5, 0, 0);
    DirectRates.StartOk(e, w0.m);
    AddedOk(e, w0, Mapped);
    StartedInVainIff(e, w, 0, 1, NORMAL, calls);
    IdleRefuses(e, w, calls);
    ConfigAnswers(e, w, 0, 1, NORMAL, calls);
  }

  lemma IdleRefuses(e: Setup, w: World, calls: int -> Calls)
    requires 0 in w.m && w.m[0] == IDLE && 0 in w.d.subs && w.d.subs[0] == [] && calls(0).batch < 0
    ensures var d := Subscribed(w.d, 0, 1, ClampLevel(NORMAL));
      BatchResult(w.m[0], e.conn, Asked(e, d, 0), calls(0).batch) < 0
  {
  }
}
