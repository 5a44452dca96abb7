// Routes, streams and pipes of the remote submix device in audio_hw.cpp: what the four open
// and close calls do to them under the device lock.
module SubmixRoutes {
  import opened Basics

  const MAX_ROUTES: nat := 10
  const DEFAULT_RATE: int := 48000
  const PCM_16_BIT: int := 1

  const IN_MONO: int := 0x10
  const IN_STEREO: int := 0xC
  const OUT_MONO: int := 0x1
  const OUT_STEREO: int := 0x3

  predicate RateSupported(rate: int) {
    rate in {8000, 11025, 12000, 16000, 22050, 24000, 32000, 44100, 48000}
  }

  // An audio_config: sample rate, channel mask and format.
  datatype Config = Config(rate: int, mask: int, format: int)

  // submix_sanitize_config
  function Sanitized(c: Config, isInput: bool): Config {
    Config(
      if RateSupported(c.rate) then c.rate else DEFAULT_RATE,
      if isInput then (if c.mask == IN_MONO || c.mask == IN_STEREO then c.mask else IN_STEREO)
      else (if c.mask == OUT_MONO || c.mask == OUT_STEREO then c.mask else OUT_STEREO),
      PCM_16_BIT)
  }

  function InChannels(mask: int): nat { if mask == IN_MONO then 1 else 2 }

  // audio_config_compare
  predicate Compatible(input: Config, output: Config) {
    !(input.rate != output.rate && InChannels(input.mask) != 1) && input.format == output.format
  }

  // One route_config. The sink, if there is one, is shut down or not; streams are identified
  // by numbers that stand for their addresses.
  datatype Route = Route(
    common: Config,
    inMask: int,
    outMask: int,
    inRate: int,
    outRate: int,
    address: string,
    sink: Option<bool>,
    source: bool,
    input: Option<nat>,
    output: Option<nat>)

  const BLANK: Route := Route(Config(0, 0, 0), 0, 0, 0, 0, "", None, false, None, None)

  // An input stream: its route handle and its reference count.
  datatype InStream = InStream(route: nat, refs: int)

  datatype Device = Device(routes: seq<Route>, ins: map<nat, InStream>, outs: map<nat, nat>, nextId: nat)

  const START: Device :=
    Device([BLANK, BLANK, BLANK, BLANK, BLANK, BLANK, BLANK, BLANK, BLANK, BLANK], map[], map[], 0)

  // submix_get_route_idx_for_address_l from index i on; empty is the last free slot seen.
  function RouteFor(routes: seq<Route>, address: string, i: nat, empty: int): (r: Option<nat>)
    requires i <= |routes| && -1 <= empty < |routes|
    ensures r.Some? ==> r.value < |routes|
    decreases |routes| - i
  {
    if i == |routes| then (if empty == -1 then None else Some(empty))
    else
      var free := if routes[i].address == "" then i else empty;
      if routes[i].address == address then Some(i) else RouteFor(routes, address, i + 1, free)
  }

  // submix_open_validate_l
  predicate MayOpen(r: Route, config: Config, openingInput: bool) {
    if !openingInput && r.output.Some? then false
    else if r.input.Some? || r.output.Some? then
      var pipe := r.common.(mask := if openingInput then r.outMask else r.inMask);
      if openingInput then Compatible(config, pipe) else Compatible(pipe, config)
    else true
  }

  // submix_audio_device_release_pipe_l
  function Released(r: Route): Route {
    r.(sink := None, source := false, address := "")
  }

  // submix_audio_device_create_pipe_l for an input or for an output stream.
  function WithPipe(r: Route, config: Config, address: string): Route {
    var r1 := r.(address := address);
    if r1.sink.None? || !r1.source then r1.(sink := Some(false), source := true, common := config) else r1
  }

  function CreatedIn(r: Route, config: Config, id: nat, address: string): Route {
    var r1 := r.(input := Some(id), inMask := config.mask, inRate := config.rate);
    WithPipe(if r1.output.None? then r1.(outRate := 48000, outMask := OUT_STEREO) else r1, config, address)
  }

  function CreatedOut(r: Route, config: Config, id: nat, address: string): Route {
    WithPipe(r.(output := Some(id), outMask := config.mask, outRate := config.rate), config, address)
  }

  datatype Opened = Opened(stream: nat) | NoRoute | Refused

  function OpenedOut(d: Device, request: Config, address: string): (r: (Device, Opened))
  {
    var config := Sanitized(request, false);
    var found := RouteFor(d.routes, address, 0, -1);
    if found.None? then (d, NoRoute)
    else
      var i := found.value;
      var r := d.routes[i];
      if !MayOpen(r, config, false) then (d, Refused)
      else
        var stale := r.sink == Some(true) || r.common.rate != config.rate;
        var r' := CreatedOut(if stale then Released(r) else r, config, d.nextId, address);
        (Device(d.routes[i := r'], d.ins, d.outs[d.nextId := i], d.nextId + 1), Opened(d.nextId))
  }

  function OpenedIn(d: Device, request: Config, address: string): (r: (Device, Opened))
  {
    var found := RouteFor(d.routes, address, 0, -1);
    if found.None? then (d, NoRoute)
    else
      var config := Sanitized(request, true);
      var i := found.value;
      var r := d.routes[i];
      if !MayOpen(r, config, true) then (d, Refused)
      else
        var shared := r.input;
        var id := if shared.Some? then shared.value else d.nextId;
        var stream := if shared.Some? && id in d.ins then InStream(i, d.ins[id].refs + 1) else InStream(i, 1);
        var r1 := if shared.Some? && r.sink == Some(true) then Released(r) else r;
        var r2 := CreatedIn(r1, config, id, address);
        var r3 := if r2.sink.Some? then r2.(sink := Some(false)) else r2;
        (Device(d.routes[i := r3], d.ins[id := stream], d.outs, if shared.Some? then d.nextId else d.nextId + 1),
         Opened(id))
  }

  function ReleasedIfUnused(r: Route): Route {
    if r.input.None? && r.output.None? then Released(r) else r
  }

  // adev_close_output_stream, for a stream that is open.
  function ClosedOut(d: Device, id: nat): Device
    requires id in d.outs && d.outs[id] < |d.routes|
  {
    var i := d.outs[id];
    Device(d.routes[i := ReleasedIfUnused(d.routes[i].(output := None))], d.ins, d.outs - {id}, d.nextId)
  }

  // adev_close_input_stream: the last reference shuts the sink down.
  function ClosedIn(d: Device, id: nat): Device
    requires id in d.ins && d.ins[id].route < |d.routes|
  {
    var s := d.ins[id].(refs := d.ins[id].refs - 1);
    var r := d.routes[s.route];
    if s.refs == 0 then
      var r1 := r.(input := None, sink := if r.sink.Some? then Some(true) else None);
      Device(d.routes[s.route := ReleasedIfUnused(r1)], d.ins - {id}, d.outs, d.nextId)
    else Device(d.routes[s.route := ReleasedIfUnused(r)], d.ins[id := s], d.outs, d.nextId)
  }

  class SubmixDevice {
    const routes: array<Route>
    var ins: map<nat, InStream>
    var outs: map<nat, nat>
    var nextId: nat

    ghost function Now(): Device
      reads this, routes
    {
      Device(routes[..], ins, outs, nextId)
    }

    constructor ()
      ensures routes.Length == MAX_ROUTES && Now() == START
    {
      routes := new Route[MAX_ROUTES](_ => BLANK);
      ins, outs, nextId := map[], map[], 0;
      new;
      assert routes[..] == START.routes;
    }

    method GetRouteIdx(address: string) returns (idx: Option<nat>)
      ensures idx == RouteFor(routes[..], address, 0, -1)
    {
      var routeIdx: int, emptyIdx: int := -1, -1;
      var i := 0;
      while i < routes.Length
        invariant i <= routes.Length && routeIdx == -1 && -1 <= emptyIdx < routes.Length
        invariant RouteFor(routes[..], address, 0, -1) == RouteFor(routes[..], address, i, emptyIdx)
      {
        if routes[i].address == "" {
          emptyIdx := i;
        }
        if routes[i].address == address {
          routeIdx := i;
          break;
        }
        i := i + 1;
      }
      if routeIdx == -1 && emptyIdx == -1 {
        return None;
      }
      if routeIdx == -1 {
        routeIdx := emptyIdx;
      }
      return Some(routeIdx);
    }

    method OpenOutputStream(request: Config, address: string) returns (r: Opened)
      modifies this, routes
      ensures (Now(), r) == OpenedOut(old(Now()), request, address)
    {
      hide RouteFor, MayOpen, Sanitized;
      var config := Sanitized(request, false);
      var found := GetRouteIdx(address);
      if found.None? {
        return NoRoute;
      }
      var i := found.value;
      if !MayOpen(routes[i], config, false) {
        return Refused;
      }
      var id := nextId;
      nextId := nextId + 1;
      var forcePipeCreation := routes[i].common.rate != config.rate;
      if routes[i].sink == Some(true) || forcePipeCreation {
        routes[i] := Released(routes[i]);
      }
      outs := outs[id := i];
      routes[i] := CreatedOut(routes[i], config, id, address);
      assert routes[..] == old(routes[..])[i := routes[i]];
      return Opened(id);
    }

    method CloseOutputStream(id: nat)
      requires id in outs && outs[id] < routes.Length
      modifies this, routes
      ensures Now() == ClosedOut(old(Now()), id)
    {
      var i := outs[id];
      routes[i] := routes[i].(output := None);
      if routes[i].input == None && routes[i].output == None {
        routes[i] := Released(routes[i]);
      }
      outs := outs - {id};
      assert routes[..] == old(routes[..])[i := routes[i]];
    }

    method OpenInputStream(request: Config, address: string) returns (r: Opened)
      requires forall i | 0 <= i < routes.Length && routes[i].input.Some? :: routes[i].input.value in ins
      modifies this, routes
      ensures (Now(), r) == OpenedIn(old(Now()), request, address)
    {
      hide RouteFor, MayOpen, Sanitized;
      var found := GetRouteIdx(address);
      if found.None? {
        return NoRoute;
      }
      var i := found.value;
      var config := Sanitized(request, true);
      if !MayOpen(routes[i], config, true) {
        return Refused;
      }
      var id;
      if routes[i].input.Some? {
        id := routes[i].input.value;
        ins := ins[id := ins[id].(refs := ins[id].refs + 1)];
        if routes[i].sink == Some(true) {
          routes[i] := Released(routes[i]);
        }
      } else {
        id := nextId;
        nextId := nextId + 1;
        ins := ins[id := InStream(i, 1)];
      }
      ins := ins[id := ins[id].(route := i)];
      assert ins == old(ins)[id := ins[id]];
      routes[i] := CreatedIn(routes[i], config, id, address);
      if routes[i].sink.Some? {
        routes[i] := routes[i].(sink := Some(false));
      }
      assert routes[..] == old(routes[..])[i := routes[i]];
      return Opened(id);
    }

    method CloseInputStream(id: nat)
      requires id in ins && ins[id].route < routes.Length
      modifies this, routes
      ensures Now() == ClosedIn(old(Now()), id)
    {
      ins := ins[id := ins[id].(refs := ins[id].refs - 1)];
      var i := ins[id].route;
      if ins[id].refs == 0 {
        routes[i] := routes[i].(input := None);
        if routes[i].sink.Some? {
          routes[i] := routes[i].(sink := Some(true));
        }
      }
      if routes[i].input == None && routes[i].output == None {
        routes[i] := Released(routes[i]);
      }
      if ins[id].refs == 0 {
        ins := ins - {id};
      }
      assert routes[..] == old(routes[..])[i := routes[i]];
    }
  }
}
