/**
  The calls the coordinator makes into the pump driver. The driver itself
  (its serial protocol) is not modelled: each call is recorded as a `Cmd`
  value, and what the calls do to the pumps is summarised by `DeviceView`,
  obtained by replaying the recorded calls.
 */
module Driver {

  /** One driver call, with the arguments it is given (the serial handle omitted). */
  datatype Cmd =
    | FindPumps
    | StopAll
    | StopPump(pump: int)
    | SetRates(rates: map<int, string>)
    | GetRates(pumps: seq<int>)
    | RunAll
    | RunPump(pump: int)
    | SetDiameter(pump: int, diameter: string)
    | GetDiameter(pump: int)
    | Prime(pump: int)
    | SetVol(pump: int, volume: real)
    | SetDirect(pump: int, direction: int)
    | RunStop(pump: int, duration: int)

  /** What the calls so far say about the pumps: fleet running, and which pumps were primed. */
  datatype DeviceView = DeviceView(running: bool, priming: set<int>)

  /** The view before any call was issued. */
  const Idle := DeviceView(false, {})

  /** Calls `run_all` and `stop_all` set the fleet flag; `prime`, `stop_pump` and `stop_all` change the primed pumps. */
  function Effect(v: DeviceView, c: Cmd): DeviceView {
    match c
    case StopAll => DeviceView(false, {})
    case RunAll => DeviceView(true, v.priming)
    case Prime(p) => DeviceView(v.running, v.priming + {p})
    case StopPump(p) => DeviceView(v.running, v.priming - {p})
    case _ => v
  }

  /** Replays `cmds` in order, starting from `v`. */
  function Replay(v: DeviceView, cmds: seq<Cmd>): DeviceView
    decreases |cmds|
  {
    if cmds == [] then v else Replay(Effect(v, cmds[0]), cmds[1..])
  }

  /** Replaying a concatenation replays its parts one after the other. */
  lemma {:induction false} ReplayAppend(v: DeviceView, t: seq<Cmd>, u: seq<Cmd>)
    ensures Replay(v, t + u) == Replay(Replay(v, t), u)
    decreases |t|
  {
    if t == [] {
      assert t + u == u;
    } else {
      assert (t + u)[0] == t[0] && (t + u)[1..] == t[1..] + u;
      ReplayAppend(Effect(v, t[0]), t[1..], u);
    }
  }

  /** A call that changes neither the fleet flag nor the primed pumps. */
  predicate Neutral(c: Cmd) {
    !(c.StopAll? || c.RunAll? || c.Prime? || c.StopPump?)
  }

  /** Replaying only neutral calls leaves the view as it was. */
  lemma {:induction false} ReplayNeutral(v: DeviceView, cmds: seq<Cmd>)
    requires forall k :: 0 <= k < |cmds| ==> Neutral(cmds[k])
    ensures Replay(v, cmds) == v
    decreases |cmds|
  {
    if cmds != [] {
      assert Effect(v, cmds[0]) == v;
      ReplayNeutral(v, cmds[1..]);
    }
  }

  /** Replaying one call is applying its effect. */
  lemma ReplayOne(v: DeviceView, c: Cmd)
    ensures Replay(v, [c]) == Effect(v, c)
  {
  }

  /** The calls of `run_update`: a full stop first when the fleet was running. */
  function RunCmds(wasRunning: bool, sent: map<int, string>, pumps: seq<int>): seq<Cmd> {
    (if wasRunning then [StopAll] else []) + [SetRates(sent), RunAll, GetRates(pumps)]
  }

  /** `run_update` always leaves the fleet running; it forgets the primed pumps only when it stopped the fleet first. */
  lemma RunCmdsEffect(v: DeviceView, wasRunning: bool, sent: map<int, string>, pumps: seq<int>)
    ensures Replay(v, RunCmds(wasRunning, sent, pumps))
         == DeviceView(true, if wasRunning then {} else v.priming)
  {
    var tail := [SetRates(sent), RunAll, GetRates(pumps)];
    var start := if wasRunning then Effect(v, StopAll) else v;
    assert start.priming == if wasRunning then {} else v.priming;
    assert Replay(start, tail) == DeviceView(true, start.priming) by {
      assert tail[1..] == [RunAll, GetRates(pumps)];
      assert tail[1..][1..] == [GetRates(pumps)];
      assert Replay(start, tail) == Replay(start, tail[1..]);
      var running := DeviceView(true, start.priming);
      assert Replay(start, tail[1..]) == Replay(running, tail[1..][1..]);
      assert Replay(running, [GetRates(pumps)]) == Replay(running, [GetRates(pumps)][1..]);
      assert [GetRates(pumps)][1..] == [];
    }
    if wasRunning {
      ReplayAppend(v, [StopAll], tail);
      assert Replay(v, [StopAll]) == Replay(start, [StopAll][1..]);
    } else {
      assert RunCmds(wasRunning, sent, pumps) == tail;
    }
  }

  /** The calls of `update_syringe` in the Stopped state. */
  function SyringeCmds(pump: int, diameter: string): seq<Cmd> {
    [SetDiameter(pump, diameter), GetDiameter(pump)]
  }

  /** The calls of `prime_pumps` in the Stopped state: start or stop that pump, then read all rates. */
  function PrimeCmds(pump: int, wasPriming: bool, pumps: seq<int>): seq<Cmd> {
    [if wasPriming then StopPump(pump) else Prime(pump), GetRates(pumps)]
  }

  /** A priming toggle flips the pump in the primed set and leaves the fleet flag alone. */
  lemma PrimeCmdsEffect(v: DeviceView, pump: int, wasPriming: bool, pumps: seq<int>)
    ensures Replay(v, PrimeCmds(pump, wasPriming, pumps))
         == DeviceView(v.running, if wasPriming then v.priming - {pump} else v.priming + {pump})
  {
    var cmds := PrimeCmds(pump, wasPriming, pumps);
    ReplayAppend(v, [cmds[0]], [cmds[1]]);
    assert cmds == [cmds[0]] + [cmds[1]];
    ReplayOne(v, cmds[0]);
    ReplayOne(Effect(v, cmds[0]), cmds[1]);
  }

  /** The calls of `deliver_volume` in the Stopped state. */
  function DeliverCmds(pump: int, volume: real): seq<Cmd> {
    [SetVol(pump, volume), RunPump(pump)]
  }

  /** Duration handed to `run_stop` in each phase of habituation. */
  const HabituationDuration: int := 100

  /** The calls of `habituate`: dispense, then withdraw, for the same duration. */
  function HabituateCmds(pump: int): seq<Cmd> {
    [SetDirect(pump, 1), RunStop(pump, HabituationDuration),
     SetDirect(pump, -1), RunStop(pump, HabituationDuration)]
  }

  /** The calls of the start-up loop that sets the syringe of every pump, in discovery order. */
  function InitSyringeCmds(pumps: seq<int>, diameter: string): (cmds: seq<Cmd>)
    decreases |pumps|
  {
    if pumps == [] then []
    else InitSyringeCmds(pumps[..|pumps| - 1], diameter) + SyringeCmds(pumps[|pumps| - 1], diameter)
  }

  /** The start-up syringe calls come in pairs, one pair per pump, in discovery order. */
  lemma {:induction false} InitSyringeCmdsAt(pumps: seq<int>, diameter: string, i: int)
    requires 0 <= i < |pumps|
    ensures |InitSyringeCmds(pumps, diameter)| == 2 * |pumps|
    ensures InitSyringeCmds(pumps, diameter)[2 * i] == SetDiameter(pumps[i], diameter)
    ensures InitSyringeCmds(pumps, diameter)[2 * i + 1] == GetDiameter(pumps[i])
    decreases |pumps|
  {
    var init := pumps[..|pumps| - 1];
    if i < |pumps| - 1 {
      InitSyringeCmdsAt(init, diameter, i);
    } else if init != [] {
      InitSyringeCmdsAt(init, diameter, 0);
    }
  }
}
