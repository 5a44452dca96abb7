// When the sink of a route is shut down: writes to it are dropped from the moment the last
// reference to the input goes until an input is opened again or the pipe is made anew.
module SubmixShutdown {
  import opened Basics
  import opened SubmixRoutes
  import opened SubmixLifecycle

  // ---------------------------------------------------------------- one call

  // Closing the last reference to an input takes it from its route: the sink is shut down if an
  // output stays, and gone with the address if not. An earlier reference changes no route.
  lemma CloseInShutsDown(d: Device, id: nat)
    requires Inv(d) && id in d.ins
    ensures d.ins[id].route < |d.routes| && |ClosedIn(d, id).routes| == |d.routes|
    ensures var i := d.ins[id].route;
      var r, r' := d.routes[i], ClosedIn(d, id).routes[i];
      && (forall k | 0 <= k < |d.routes| && k != i :: ClosedIn(d, id).routes[k] == d.routes[k])
      && (d.ins[id].refs != 1 ==> r' == r && ClosedIn(d, id).ins == d.ins[id := InStream(i, d.ins[id].refs - 1)])
      && (d.ins[id].refs == 1 ==> r'.input == None && r'.output == r.output && ClosedIn(d, id).ins == d.ins - {id})
      && (d.ins[id].refs == 1 && r.output.Some? ==> r'.sink == Some(true) && r'.source && r'.address == r.address)
      && (d.ins[id].refs == 1 && r.output.None? ==> r'.sink == None && !r'.source && r'.address == "")
  {
    hide RatesOk, AddressesDistinct, OutputsOk;
    InputPointsBack(d, id);
  }

  // Closing an output leaves the pipe to the input, or takes it away with the address.
  lemma CloseOutKeepsPipe(d: Device, id: nat)
    requires Inv(d) && id in d.outs
    ensures d.outs[id] < |d.routes| && |ClosedOut(d, id).routes| == |d.routes|
    ensures var i := d.outs[id];
      var r, r' := d.routes[i], ClosedOut(d, id).routes[i];
      && (forall k | 0 <= k < |d.routes| && k != i :: ClosedOut(d, id).routes[k] == d.routes[k])
      && r'.output == None && r'.input == r.input && ClosedOut(d, id).outs == d.outs - {id}
      && (r.input.Some? ==> r'.sink == r.sink && r'.source == r.source && r'.address == r.address)
      && (r.input.None? ==> r'.sink == None && !r'.source && r'.address == "")
  {
    hide RatesOk, AddressesDistinct, InputsOk;
    OutputPointsBack(d, id);
  }

  // ---------------------------------------------------------------- the configurations

  // A supported request is taken as it is; what is not supported is replaced by 48000, stereo and
  // 16 bits.
  lemma SanitizedIsSupported(c: Config, isInput: bool)
    ensures var s := Sanitized(c, isInput);
      && RateSupported(s.rate) && s.rate == (if RateSupported(c.rate) then c.rate else 48000)
      && (isInput ==> s.mask == if c.mask == IN_MONO then IN_MONO else IN_STEREO)
      && (!isInput ==> s.mask == if c.mask == OUT_MONO then OUT_MONO else OUT_STEREO)
      && s.format == PCM_16_BIT && Sanitized(s, isInput) == s
  {
  }

  // ---------------------------------------------------------------- every run

  // What a call can do to one route.
  datatype Change = Same | NewOutput | NewInput | InputGone | OutputGone

  ghost predicate Changes(r: Route, r': Route, c: Change) {
    match c
    case Same => r' == r
    case NewOutput =>
      r.output.None? && r'.output.Some? && r'.input == r.input && (r.input.None? ==> r'.sink == Some(false))
    case NewInput => r'.input.Some?
    case InputGone =>
      r.input.Some? && r'.input.None? && r'.output == r.output && (r.output.Some? ==> r'.sink == Some(true))
    case OutputGone => r'.output.None?
  }

  lemma OpenOutChanges(d: Device, request: Config, address: string, i: nat) returns (c: Change)
    requires Inv(d) && address != "" && i < |d.routes|
    ensures |OpenedOut(d, request, address).0.routes| == |d.routes|
    ensures Changes(d.routes[i], OpenedOut(d, request, address).0.routes[i], c)
  {
    hide MayOpen, Sanitized, RouteFor, RatesOk, InputsOk, OutputsOk, AddressesDistinct, HasRoute, CreatedOut;
    FoundRoute(d, address);
    c := Same;
    var found := RouteFor(d.routes, address, 0, -1);
    if OpenedOut(d, request, address).1.Opened? && i == found.value {
      c := NewOutput;
      assert PipeOk(d.routes[i]) && RatesOk(d.routes[i]);
      FreshOutput(d.routes[i], request, d.nextId, address);
    }
  }

  // A route that no stream is open on gets a new pipe, which is not shut down.
  lemma FreshOutput(r: Route, request: Config, id: nat, address: string)
    requires PipeOk(r) && MayOpen(r, Sanitized(request, false), false)
    ensures var config := Sanitized(request, false);
      var stale := r.sink == Some(true) || r.common.rate != config.rate;
      var r' := CreatedOut(if stale then Released(r) else r, config, id, address);
      r.output.None? && r'.output == Some(id) && r'.input == r.input && (r.input.None? ==> r'.sink == Some(false))
  {
    hide Sanitized;
  }

  lemma OpenInChanges(d: Device, request: Config, address: string, i: nat) returns (c: Change)
    requires Inv(d) && address != "" && i < |d.routes|
    ensures |OpenedIn(d, request, address).0.routes| == |d.routes|
    ensures Changes(d.routes[i], OpenedIn(d, request, address).0.routes[i], c)
  {
    hide MayOpen, Sanitized, RouteFor, RatesOk, InputsOk, OutputsOk, AddressesDistinct, HasRoute;
    FoundRoute(d, address);
    c := Same;
    if OpenedIn(d, request, address).1.Opened? && i == RouteFor(d.routes, address, 0, -1).value {
      c := NewInput;
    }
  }

  lemma StepChanges(s: State, step: Step, i: nat) returns (c: Change)
    requires Inv(s.d) && CountsOk(s) && Allowed(s, step) && i < |s.d.routes|
    ensures |Next(s, step).d.routes| == |s.d.routes|
    ensures Changes(s.d.routes[i], Next(s, step).d.routes[i], c)
  {
    hide Inv, OpenedOut, OpenedIn, ClosedOut, ClosedIn;
    match step {
      case OpenOut(request, address) => c := OpenOutChanges(s.d, request, address, i);
      case OpenIn(request, address) => c := OpenInChanges(s.d, request, address, i);
      case CloseOut(id) =>
        CloseOutKeepsPipe(s.d, id);
        c := if i == s.d.outs[id] then OutputGone else Same;
      case CloseIn(id) =>
        CloseInShutsDown(s.d, id);
        InputIsThere(s.d, id);
        c := if i == s.d.ins[id].route && s.d.ins[id].refs == 1 then InputGone else Same;
    }
  }

  lemma InputIsThere(d: Device, id: nat)
    requires Inv(d) && id in d.ins
    ensures d.ins[id].route < |d.routes| && d.routes[d.ins[id].route].input == Some(id)
  {
    InputPointsBack(d, id);
  }

  // In step k the route lost its input, and it had the output all the time from then to n.
  ghost predicate InputLeft(states: seq<State>, k: nat, n: nat, i: nat)
    requires n < |states|
  {
    && k < n && (forall l | k <= l <= n :: i < |states[l].d.routes|)
    && states[k].d.routes[i].input.Some? && states[k + 1].d.routes[i].input.None?
    && forall l | k <= l <= n :: states[l].d.routes[i].output == states[n].d.routes[i].output
  }

  ghost predicate SomeInputLeft(states: seq<State>, n: nat, i: nat)
    requires n < |states|
  {
    exists k: nat :: InputLeft(states, k, n, i)
  }

  ghost predicate ShutOk(states: seq<State>, n: nat, i: nat)
    requires n < |states|
  {
    i < |states[n].d.routes| &&
    var r := states[n].d.routes[i];
    r.output.Some? && r.input.None? ==> (r.sink == Some(true) <==> SomeInputLeft(states, n, i))
  }

  lemma StepShutOk(states: seq<State>, n: nat, i: nat, c: Change)
    requires n + 1 < |states| && ShutOk(states, n, i) && i < |states[n + 1].d.routes|
    requires Changes(states[n].d.routes[i], states[n + 1].d.routes[i], c)
    ensures ShutOk(states, n + 1, i)
  {
    var r, r' := states[n].d.routes[i], states[n + 1].d.routes[i];
    if r'.output.Some? && r'.input.None? {
      match c {
        case Same =>
          if SomeInputLeft(states, n, i) {
            var k: nat :| InputLeft(states, k, n, i);
            StillLeft(states, k, n, i);
          }
          if SomeInputLeft(states, n + 1, i) {
            var k: nat :| InputLeft(states, k, n + 1, i);
            StillLeft(states, k, n, i);
          }
        case NewOutput =>
          NewOutputUnleft(states, n, i);
        case InputGone =>
          assert InputLeft(states, n, n + 1, i);
      }
    }
  }

  lemma NewOutputUnleft(states: seq<State>, n: nat, i: nat)
    requires n + 1 < |states| && i < |states[n].d.routes| && i < |states[n + 1].d.routes|
    requires states[n].d.routes[i].output != states[n + 1].d.routes[i].output
    ensures !SomeInputLeft(states, n + 1, i)
  {
    var m := n + 1;
    forall k: nat ensures !InputLeft(states, k, m, i) {
      if k <= n {
        assert states[n].d.routes[i].output != states[m].d.routes[i].output;
      }
    }
  }

  lemma StillLeft(states: seq<State>, k: nat, n: nat, i: nat)
    requires n + 1 < |states| && i < |states[n].d.routes| && i < |states[n + 1].d.routes|
    requires states[n + 1].d.routes[i] == states[n].d.routes[i] && states[n].d.routes[i].input.None?
    ensures InputLeft(states, k, n, i) <==> InputLeft(states, k, n + 1, i)
  {
  }

  // In every state of every run: the sink of a route with an output and no input is shut down
  // exactly if an input of the route was closed for the last time while this output was open.
  lemma {:induction false} SinkShutIff(states: seq<State>, steps: seq<Step>, n: nat, i: nat)
    requires IsRun(states, steps) && n < |states| && i < MAX_ROUTES
    ensures ShutOk(states, n, i)
  {
    hide Inv, CountsOk, Next, Allowed, ShutOk, Changes;
    if n == 0 {
      StartShut(states, i);
    } else {
      SinkShutIff(states, steps, n - 1, i);
      EveryRunIsSafe(states, steps, n - 1);
      RoutesLeft(states[n - 1].d);
      assert IsStep(states[n - 1], steps[n - 1], states[n - 1 + 1]);
      var c := StepChanges(states[n - 1], steps[n - 1], i);
      StepShutOk(states, n - 1, i, c);
    }
  }

  lemma RoutesLeft(d: Device)
    requires Inv(d)
    ensures |d.routes| == MAX_ROUTES
  {
  }

  lemma StartShut(states: seq<State>, i: nat)
    requires states != [] && states[0] == State(START, []) && i < MAX_ROUTES
    ensures ShutOk(states, 0, i)
  {
  }
}
