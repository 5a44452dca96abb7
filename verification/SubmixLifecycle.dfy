// Safety of the remote submix device over every run of open and close calls in audio_hw.cpp.
module SubmixLifecycle {
  import opened Basics
  import opened SubmixRoutes

  // ---------------------------------------------------------------- what a route keeps

  predicate IsOpen(r: Route) {
    r.input.Some? || r.output.Some?
  }

  // Sink, source and address come and go together, with the first and the last stream; a sink
  // that is shut down has no input.
  predicate PipeOk(r: Route) {
    && (r.sink.Some? <==> r.source)
    && (r.source <==> r.address != "")
    && (r.address != "" <==> IsOpen(r))
    && (r.sink == Some(true) ==> r.input.None?)
  }

  // The pipe runs at the rate of the output stream and at that of an input that is not mono;
  // what the configuration of an open route says is supported.
  predicate RatesOk(r: Route) {
    && (r.output.Some? ==> r.common.rate == r.outRate)
    && (r.input.Some? && r.inMask != IN_MONO ==> r.common.rate == r.inRate)
    && (r.input.Some? ==> RateSupported(r.inRate) && r.inMask in {IN_MONO, IN_STEREO})
    && (IsOpen(r) ==> RateSupported(r.outRate) && r.outMask in {OUT_MONO, OUT_STEREO})
    && (IsOpen(r) ==> r.common.format == PCM_16_BIT)
  }

  // What in_read asserts about its route before it converts channels and resamples: 16-bit
  // samples, one or two channels on either side, and no resampling unless the input is mono.
  predicate ReadAsserts(r: Route) {
    && r.common.format == PCM_16_BIT
    && r.inMask in {IN_MONO, IN_STEREO} && r.outMask in {OUT_MONO, OUT_STEREO}
    && (r.inRate != r.outRate ==> InChannels(r.inMask) == 1)
  }

  // An open stream's handle is the index of the one route that points back to it.
  ghost predicate InputsOk(d: Device) {
    && (forall i | 0 <= i < |d.routes| && d.routes[i].input.Some? ::
          d.routes[i].input.value in d.ins && d.ins[d.routes[i].input.value].route == i)
    && (forall id | id in d.ins ::
          id < d.nextId && d.ins[id].route < |d.routes| && d.routes[d.ins[id].route].input == Some(id))
  }

  ghost predicate OutputsOk(d: Device) {
    && (forall i | 0 <= i < |d.routes| && d.routes[i].output.Some? ::
          d.routes[i].output.value in d.outs && d.outs[d.routes[i].output.value] == i)
    && (forall id | id in d.outs ::
          id < d.nextId && d.outs[id] < |d.routes| && d.routes[d.outs[id]].output == Some(id))
  }

  ghost predicate AddressesDistinct(routes: seq<Route>) {
    forall i, j | 0 <= i < j < |routes| && routes[i].address != "" :: routes[i].address != routes[j].address
  }

  ghost predicate Inv(d: Device) {
    && |d.routes| == MAX_ROUTES
    && (forall i | 0 <= i < |d.routes| :: PipeOk(d.routes[i]) && RatesOk(d.routes[i]))
    && AddressesDistinct(d.routes)
    && InputsOk(d)
    && OutputsOk(d)
  }

  // ---------------------------------------------------------------- runs

  datatype Step =
    | OpenOut(request: Config, address: string)
    | OpenIn(request: Config, address: string)
    | CloseOut(id: nat)
    | CloseIn(id: nat)

  datatype Event = OutOpened(id: nat) | InOpened(id: nat) | OutClosed(id: nat) | InClosed(id: nat)

  // A device with the history of its successful opens and its closes.
  datatype State = State(d: Device, log: seq<Event>)

  // AUDIO_DEVICE_MAX_ADDRESS_LEN: a C string this short fits the address field with its NUL.
  predicate Bounded(address: string) {
    0 < |address| < 32 && '\0' !in address
  }

  // Addresses are bounded and non-empty, and only an open stream is closed.
  predicate Allowed(s: State, step: Step) {
    match step
    case OpenOut(_, address) => Bounded(address)
    case OpenIn(_, address) => Bounded(address)
    case CloseOut(id) => id in s.d.outs && s.d.outs[id] < |s.d.routes|
    case CloseIn(id) => id in s.d.ins && s.d.ins[id].route < |s.d.routes|
  }

  function Next(s: State, step: Step): State
    requires Allowed(s, step)
  {
    match step
    case OpenOut(request, address) =>
      var (d, r) := OpenedOut(s.d, request, address);
      State(d, if r.Opened? then s.log + [OutOpened(r.stream)] else s.log)
    case OpenIn(request, address) =>
      var (d, r) := OpenedIn(s.d, request, address);
      State(d, if r.Opened? then s.log + [InOpened(r.stream)] else s.log)
    case CloseOut(id) => State(ClosedOut(s.d, id), s.log + [OutClosed(id)])
    case CloseIn(id) => State(ClosedIn(s.d, id), s.log + [InClosed(id)])
  }

  ghost predicate IsStep(s: State, step: Step, s': State) {
    Allowed(s, step) && s' == Next(s, step)
  }

  ghost predicate IsRun(states: seq<State>, steps: seq<Step>) {
    && |states| == |steps| + 1
    && states[0] == State(START, [])
    && (forall i | 0 <= i < |steps| :: IsStep(states[i], steps[i], states[i + 1]))
  }

  function Count(log: seq<Event>, e: Event): nat {
    multiset(log)[e]
  }

  // Opens minus closes of a stream.
  function OutUsers(log: seq<Event>, id: nat): int {
    Count(log, OutOpened(id)) - Count(log, OutClosed(id))
  }

  function Users(log: seq<Event>, id: nat): int {
    Count(log, InOpened(id)) - Count(log, InClosed(id))
  }

  function Refs(d: Device, id: nat): int {
    if id in d.ins then d.ins[id].refs else 0
  }

  // A stream is live exactly while it has been opened more often than closed; an input's
  // reference count is the difference.
  ghost predicate CountsOk(s: State) {
    && (forall id | id in s.d.ins :: s.d.ins[id].refs >= 1)
    && (forall id: nat :: Refs(s.d, id) == Users(s.log, id))
    && (forall id: nat :: OutUsers(s.log, id) == if id in s.d.outs then 1 else 0)
  }

  // ---------------------------------------------------------------- finding a route

  ghost predicate Matches(routes: seq<Route>, address: string, i: int) {
    0 <= i < |routes| && routes[i].address == address
  }

  // The search answers a route with the address; failing that a free route, unless
  // there is none.
  lemma {:induction false} RouteForFinds(routes: seq<Route>, address: string, i: nat, empty: int)
    requires i <= |routes| && -1 <= empty < |routes|
    requires empty != -1 ==> Matches(routes, "", empty)
    ensures var r := RouteFor(routes, address, i, empty);
      && (r.Some? ==> Matches(routes, address, r.value) || Matches(routes, "", r.value))
      && ((exists k :: i <= k && Matches(routes, address, k)) ==> r.Some? && Matches(routes, address, r.value))
      && (r.None? <==> empty == -1 && forall k :: i <= k ==> !Matches(routes, address, k) && !Matches(routes, "", k))
      && (r.Some? ==> r.value == empty || r.value >= i)
      && (r.Some? && routes[r.value].address != address ==>
            forall k :: i <= k && r.value < k ==> !Matches(routes, "", k))
    decreases |routes| - i
  {
    if i < |routes| {
      assert routes[i].address == address ==> Matches(routes, address, i);
      assert routes[i].address == "" ==> Matches(routes, "", i);
      if routes[i].address != address {
        RouteForFinds(routes, address, i + 1, if routes[i].address == "" then i else empty);
      }
    }
  }

  // ---------------------------------------------------------------- one route

  lemma OutRouteOk(r: Route, request: Config, id: nat, address: string)
    requires PipeOk(r) && RatesOk(r) && r.address in {address, ""}
    requires MayOpen(r, Sanitized(request, false), false)
    ensures var config := Sanitized(request, false);
      var stale := r.sink == Some(true) || r.common.rate != config.rate;
      var r' := CreatedOut(if stale then Released(r) else r, config, id, address);
      && r'.address == address && r'.output == Some(id) && r'.input == r.input && r.output.None?
      && RatesOk(r') && (PipeOk(r') <==> address != "")
  {
  }

  lemma InRouteOk(r: Route, request: Config, id: nat, address: string)
    requires PipeOk(r) && RatesOk(r) && r.address in {address, ""}
    requires MayOpen(r, Sanitized(request, true), true)
    ensures var config := Sanitized(request, true);
      var r1 := if r.input.Some? && r.sink == Some(true) then Released(r) else r;
      var r2 := CreatedIn(r1, config, id, address);
      var r3 := if r2.sink.Some? then r2.(sink := Some(false)) else r2;
      && r3.address == address && r3.input == Some(id) && r3.output == r.output
      && RatesOk(r3) && (PipeOk(r3) <==> address != "")
  {
  }

  // ---------------------------------------------------------------- frames

  ghost predicate OnlyRoute(d: Device, d': Device, i: nat) {
    && i < |d.routes| && |d'.routes| == |d.routes| && d'.routes == d.routes[i := d'.routes[i]]
    && d'.nextId >= d.nextId
  }

  // The input of the route at i becomes id, an input new to the device or already there.
  lemma InputBound(d: Device, d': Device, i: nat, id: nat)
    requires InputsOk(d) && OnlyRoute(d, d', i) && id < d'.nextId
    requires if id in d.ins then d.routes[i].input == Some(id) else d.routes[i].input == None
    requires d'.routes[i].input == Some(id) && id in d'.ins
    requires d'.ins == d.ins[id := d'.ins[id]] && d'.ins[id].route == i
    ensures InputsOk(d')
  {
  }

  lemma InputUnbound(d: Device, d': Device, i: nat, id: nat)
    requires InputsOk(d) && OnlyRoute(d, d', i)
    requires d.routes[i].input == Some(id) && d'.routes[i].input == None && d'.ins == d.ins - {id}
    ensures InputsOk(d')
  {
  }

  lemma InputsStay(d: Device, d': Device, i: nat)
    requires InputsOk(d) && OnlyRoute(d, d', i)
    requires d'.routes[i].input == d.routes[i].input && d'.ins == d.ins
    ensures InputsOk(d')
  {
  }

  lemma OutputBound(d: Device, d': Device, i: nat, id: nat)
    requires OutputsOk(d) && OnlyRoute(d, d', i) && id < d'.nextId && id !in d.outs
    requires d.routes[i].output == None && d'.routes[i].output == Some(id) && d'.outs == d.outs[id := i]
    ensures OutputsOk(d')
  {
  }

  lemma OutputUnbound(d: Device, d': Device, i: nat, id: nat)
    requires OutputsOk(d) && OnlyRoute(d, d', i)
    requires d.routes[i].output == Some(id) && d'.routes[i].output == None && d'.outs == d.outs - {id}
    ensures OutputsOk(d')
  {
  }

  lemma OutputsStay(d: Device, d': Device, i: nat)
    requires OutputsOk(d) && OnlyRoute(d, d', i)
    requires d'.routes[i].output == d.routes[i].output && d'.outs == d.outs
    ensures OutputsOk(d')
  {
  }

  // Binding a route to an address that no other route holds keeps addresses distinct.
  lemma AddressStays(routes: seq<Route>, i: nat, r: Route)
    requires i < |routes| && AddressesDistinct(routes)
    requires r.address == "" || r.address == routes[i].address || forall k :: !Matches(routes, r.address, k)
    ensures AddressesDistinct(routes[i := r])
  {
    var after := routes[i := r];
    forall k, j | 0 <= k < j < |after| && after[k].address != ""
      ensures after[k].address != after[j].address
    {
      assert Matches(routes, routes[k].address, k) && Matches(routes, routes[j].address, j);
    }
  }

  // ---------------------------------------------------------------- one call

  // The device has a route left for the address.
  ghost predicate HasRoute(d: Device, address: string) {
    exists k :: Matches(d.routes, address, k) || Matches(d.routes, "", k)
  }

  // A route for the address is the one it is already bound to, or a free one.
  lemma FoundRoute(d: Device, address: string)
    requires Inv(d)
    ensures var r := RouteFor(d.routes, address, 0, -1);
      && (r.Some? <==> HasRoute(d, address))
      && (r.Some? ==> d.routes[r.value].address in {address, ""})
      && (r.Some? && d.routes[r.value].address != address ==> forall k :: !Matches(d.routes, address, k))
  {
    hide PipeOk, RatesOk, InputsOk, OutputsOk, AddressesDistinct;
    RouteForFinds(d.routes, address, 0, -1);
    var r := RouteFor(d.routes, address, 0, -1);
    if r.Some? {
      assert Matches(d.routes, d.routes[r.value].address, r.value);
    }
  }

  // Opening keeps the invariant exactly when the address is not empty, or no route is free to
  // open a stream under the empty address.
  lemma OpenOutOk(d: Device, request: Config, address: string)
    requires Inv(d)
    ensures var (d', r) := OpenedOut(d, request, address);
      Inv(d') <==> address != "" || !HasRoute(d, "")
    ensures OpenedOut(d, request, address).1 == NoRoute <==> !HasRoute(d, address)
  {
    hide MayOpen, Sanitized, CreatedOut, RouteFor, PipeOk, RatesOk, InputsOk, OutputsOk, AddressesDistinct, HasRoute;
    FoundRoute(d, address);
    var (d', res) := OpenedOut(d, request, address);
    if address == "" {
      OutputOpensIff(d, request, "");
      FreeHasNoStreams(d);
    }
    if res.Opened? {
      var i := RouteFor(d.routes, address, 0, -1).value;
      OutRouteOk(d.routes[i], request, d.nextId, address);
      AddressStays(d.routes, i, d'.routes[i]);
      InputsStay(d, d', i);
      FreshId(d);
      OutputBound(d, d', i, d.nextId);
    }
  }

  // An output opens exactly when the device has a route left and the route of the address, if
  // it is in use, has no output and no input that is stereo at another rate.
  lemma OutputOpensIff(d: Device, request: Config, address: string)
    requires Inv(d)
    ensures OpenedOut(d, request, address).1.Opened? <==>
      && HasRoute(d, address)
      && forall k | 0 <= k < |d.routes| && d.routes[k].address == address ::
           && d.routes[k].output.None?
           && (d.routes[k].input.Some? ==>
                d.routes[k].inMask == IN_MONO || d.routes[k].inRate == Sanitized(request, false).rate)
  {
    hide Sanitized, CreatedOut, RouteFor, InputsOk, OutputsOk, HasRoute;
    FoundRoute(d, address);
    var found := RouteFor(d.routes, address, 0, -1);
    if found.Some? {
      var r := d.routes[found.value];
      assert PipeOk(r) && RatesOk(r);
      SanitizedFormat(request, false);
      forall k | 0 <= k < |d.routes| && d.routes[k].address == address != "" ensures k == found.value {
        assert Matches(d.routes, address, k);
      }
      FreeHasNoStreams(d);
    }
  }

  // An input opens exactly when the device has a route left and it is mono, or at the rate of
  // the pipe if the route of the address is in use; an input there already does not matter.
  lemma InputOpensIff(d: Device, request: Config, address: string)
    requires Inv(d)
    ensures OpenedIn(d, request, address).1.Opened? <==>
      && HasRoute(d, address)
      && forall k | 0 <= k < |d.routes| && d.routes[k].address == address && IsOpen(d.routes[k]) ::
           Sanitized(request, true).mask == IN_MONO || d.routes[k].common.rate == Sanitized(request, true).rate
  {
    hide Sanitized, CreatedIn, RouteFor, InputsOk, OutputsOk, HasRoute;
    FoundRoute(d, address);
    var found := RouteFor(d.routes, address, 0, -1);
    if found.Some? {
      var r := d.routes[found.value];
      assert PipeOk(r) && RatesOk(r);
      SanitizedFormat(request, true);
      forall k | 0 <= k < |d.routes| && d.routes[k].address == address != "" ensures k == found.value {
        assert Matches(d.routes, address, k);
      }
      FreeHasNoStreams(d);
    }
  }

  lemma FreeHasNoStreams(d: Device)
    requires Inv(d)
    ensures forall k | 0 <= k < |d.routes| && d.routes[k].address == "" ::
      d.routes[k].input.None? && d.routes[k].output.None?
  {
  }

  lemma SanitizedFormat(request: Config, isInput: bool)
    ensures Sanitized(request, isInput).format == PCM_16_BIT
  {
  }

  lemma FreshId(d: Device)
    requires Inv(d)
    ensures d.nextId !in d.outs && d.nextId !in d.ins
    ensures forall i | 0 <= i < |d.routes| && d.routes[i].input.Some? :: d.routes[i].input.value in d.ins
  {
  }

  lemma OpenInOk(d: Device, request: Config, address: string)
    requires Inv(d)
    ensures var (d', r) := OpenedIn(d, request, address);
      Inv(d') <==> address != "" || !HasRoute(d, "")
    ensures OpenedIn(d, request, address).1 == NoRoute <==> !HasRoute(d, address)
  {
    hide MayOpen, Sanitized, CreatedIn, RouteFor, PipeOk, RatesOk, InputsOk, OutputsOk, AddressesDistinct, HasRoute;
    FoundRoute(d, address);
    var (d', res) := OpenedIn(d, request, address);
    if address == "" {
      InputOpensIff(d, request, "");
      FreeHasNoStreams(d);
    }
    if res.Opened? {
      var i := RouteFor(d.routes, address, 0, -1).value;
      InRouteOk(d.routes[i], request, res.stream, address);
      AddressStays(d.routes, i, d'.routes[i]);
      OutputsStay(d, d', i);
      FreshId(d);
      InputIdKnown(d, i);
      InputBound(d, d', i, res.stream);
    }
  }

  lemma InputIdKnown(d: Device, i: nat)
    requires InputsOk(d) && i < |d.routes|
    ensures d.routes[i].input.Some? ==> d.routes[i].input.value < d.nextId
  {
  }

  lemma CloseOutOk(d: Device, id: nat)
    requires Inv(d) && id in d.outs
    ensures Inv(ClosedOut(d, id))
  {
    hide InputsOk, OutputsOk, AddressesDistinct;
    OutputPointsBack(d, id);
    var d', i := ClosedOut(d, id), d.outs[id];
    AddressStays(d.routes, i, d'.routes[i]);
    InputsStay(d, d', i);
    OutputUnbound(d, d', i, id);
  }

  lemma CloseInOk(d: Device, id: nat)
    requires Inv(d) && id in d.ins
    ensures Inv(ClosedIn(d, id))
  {
    hide InputsOk, OutputsOk, AddressesDistinct;
    InputPointsBack(d, id);
    var d', i := ClosedIn(d, id), d.ins[id].route;
    AddressStays(d.routes, i, d'.routes[i]);
    OutputsStay(d, d', i);
    if id in d'.ins {
      InputIdKnown(d, i);
      InputBound(d, d', i, id);
    } else {
      InputUnbound(d, d', i, id);
    }
  }

  lemma OutputPointsBack(d: Device, id: nat)
    requires OutputsOk(d) && id in d.outs
    ensures d.outs[id] < |d.routes| && d.routes[d.outs[id]].output == Some(id)
  {
  }

  lemma InputPointsBack(d: Device, id: nat)
    requires InputsOk(d) && id in d.ins
    ensures d.ins[id].route < |d.routes| && d.routes[d.ins[id].route].input == Some(id)
  {
  }

  // ---------------------------------------------------------------- every run

  lemma StepOk(s: State, step: Step)
    requires Inv(s.d) && CountsOk(s) && Allowed(s, step)
    ensures Inv(Next(s, step).d)
  {
    hide Inv, OpenedOut, OpenedIn, ClosedOut, ClosedIn, CountsOk;
    match step {
      case OpenOut(request, address) => OpenOutOk(s.d, request, address);
      case OpenIn(request, address) => OpenInOk(s.d, request, address);
      case CloseOut(id) => CloseOutOk(s.d, id);
      case CloseIn(id) => CloseInOk(s.d, id);
    }
  }

  lemma Counted(log: seq<Event>, e: Event)
    ensures forall id: nat ::
      (Users(log + [e], id) - Users(log, id) == if e == InOpened(id) then 1 else if e == InClosed(id) then -1 else 0)
    ensures forall id: nat ::
      (OutUsers(log + [e], id) - OutUsers(log, id)
       == if e == OutOpened(id) then 1 else if e == OutClosed(id) then -1 else 0)
  {
  }

  // What a call does to the live streams matches what it adds to the history.
  lemma CountsStep(s: State, step: Step)
    requires Inv(s.d) && CountsOk(s) && Allowed(s, step)
    ensures CountsOk(Next(s, step))
  {
    hide MayOpen, Sanitized, CreatedIn, CreatedOut, RouteFor, ReleasedIfUnused, Users, OutUsers, Inv;
    FreshId(s.d);
    match step {
      case OpenOut(request, address) =>
        var (d', r) := OpenedOut(s.d, request, address);
        if r.Opened? {
          Counted(s.log, OutOpened(r.stream));
          assert d'.outs.Keys == s.d.outs.Keys + {r.stream};
        }
      case OpenIn(request, address) =>
        var (d', r) := OpenedIn(s.d, request, address);
        if r.Opened? {
          Counted(s.log, InOpened(r.stream));
          forall id: nat
            ensures Refs(d', id) == Refs(s.d, id) + if id == r.stream then 1 else 0
          {
            assert id in d'.ins <==> id in s.d.ins || id == r.stream;
          }
        }
      case CloseOut(id) =>
        Counted(s.log, OutClosed(id));
      case CloseIn(id) =>
        Counted(s.log, InClosed(id));
    }
  }

  // In every state of every run of opens and closes: sink, source, address and streams of a
  // route come and go together, addresses are distinct, handles point back, reference counts
  // are opens minus closes, and two open streams of one route agree on the rate unless the
  // input is mono.
  lemma {:induction false} EveryRunIsSafe(states: seq<State>, steps: seq<Step>, k: nat)
    requires IsRun(states, steps) && k < |states|
    ensures Inv(states[k].d) && CountsOk(states[k])
  {
    hide Inv, CountsOk, Next, Allowed;
    if k == 0 {
      StartOk();
    } else {
      EveryRunIsSafe(states, steps, k - 1);
      assert IsStep(states[k - 1], steps[k - 1], states[k - 1 + 1]);
      StepOk(states[k - 1], steps[k - 1]);
      CountsStep(states[k - 1], steps[k - 1]);
    }
  }

  lemma StartOk()
    ensures Inv(START) && CountsOk(State(START, []))
  {
  }

  // Whatever was opened, closed, re-opened or re-created before, two open streams of one
  // route agree on the rate, and with the pipe, unless the input is mono.
  lemma RatesAgree(states: seq<State>, steps: seq<Step>, k: nat, i: nat)
    requires IsRun(states, steps) && k < |states| && i < MAX_ROUTES
    ensures |states[k].d.routes| == MAX_ROUTES
    ensures var r := states[k].d.routes[i];
      r.input.Some? && r.output.Some? ==>
        && r.common.rate == r.outRate
        && (r.inRate == r.outRate || r.inMask == IN_MONO)
        && ReadAsserts(r)
  {
    hide IsRun, CountsOk;
    EveryRunIsSafe(states, steps, k);
  }

  // With no output open the one to read from is taken to be stereo at 48000, and what in_read
  // asserts holds exactly when the input just opened is mono or at that rate.
  lemma LoneInputAssertsIff(d: Device, request: Config, address: string)
    requires Inv(d) && OpenedIn(d, request, address).1.Opened?
    requires d.routes[RouteFor(d.routes, address, 0, -1).value].output.None?
    ensures var d' := OpenedIn(d, request, address).0;
      var i, config := RouteFor(d.routes, address, 0, -1).value, Sanitized(request, true);
      && (ReadAsserts(d'.routes[i]) <==> config.mask == IN_MONO || config.rate == DEFAULT_RATE)
      && d'.routes[i].outRate == 48000 && d'.routes[i].outMask == 0x3
      && d'.routes[i].inRate == config.rate && d'.routes[i].inMask == config.mask
  {
    hide MayOpen, Sanitized, CreatedIn, RouteFor, PipeOk, RatesOk, InputsOk, OutputsOk, AddressesDistinct, ReadAsserts;
    FoundRoute(d, address);
    var r := d.routes[RouteFor(d.routes, address, 0, -1).value];
    LoneRouteAssertsIff(r, request, OpenedIn(d, request, address).1.stream, address);
  }

  lemma LoneRouteAssertsIff(r: Route, request: Config, id: nat, address: string)
    requires PipeOk(r) && RatesOk(r) && r.address in {address, ""} && r.output.None?
    requires MayOpen(r, Sanitized(request, true), true)
    ensures var config := Sanitized(request, true);
      var r1 := if r.input.Some? && r.sink == Some(true) then Released(r) else r;
      var r2 := CreatedIn(r1, config, id, address);
      var r3 := if r2.sink.Some? then r2.(sink := Some(false)) else r2;
      && (ReadAsserts(r3) <==> config.mask == IN_MONO || config.rate == DEFAULT_RATE)
      && r3.outRate == 48000 && r3.outMask == 0x3 && r3.inRate == config.rate && r3.inMask == config.mask
  {
  }

  // A stereo input at 44100 is the first stream of a new device: reading it would resample stereo.
  lemma LoneStereoInputFailsAsserts()
    ensures var (d, r) := OpenedIn(START, STEREO_44100, "a");
      && r.Opened? && RouteFor(START.routes, "a", 0, -1).Some?
      && !ReadAsserts(d.routes[RouteFor(START.routes, "a", 0, -1).value])
  {
    hide MayOpen, Sanitized, CreatedIn, RouteFor, PipeOk, RatesOk, InputsOk, OutputsOk,
      AddressesDistinct, ReadAsserts, OpenedIn;
    StartOk();
    StartIsBlank();
    FoundRoute(START, "a");
    InputOpensIff(START, STEREO_44100, "a");
    SanitizedStereo();
    LoneInputAssertsIff(START, STEREO_44100, "a");
  }

  const STEREO_44100: Config := Config(44100, IN_STEREO, PCM_16_BIT)

  lemma SanitizedStereo()
    ensures Sanitized(STEREO_44100, true) == STEREO_44100
  {
  }

  lemma StartIsBlank()
    ensures HasRoute(START, "a") && forall k | 0 <= k < |START.routes| :: START.routes[k] == BLANK
  {
    assert Matches(START.routes, "", 0);
  }

  // The empty address breaks the invariant of a new device.
  lemma EmptyAddressLeaksPipe(request: Config)
    ensures OpenedOut(START, request, "").1 == Opened(0)
    ensures !Inv(OpenedOut(START, request, "").0)
  {
    StartOk();
    OpenOutOk(START, request, "");
  }
}
