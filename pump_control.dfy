/**
  The coordinator of `PumpControl`: the fleet mode, the set of priming pumps,
  the per-pump rate, volume and displayed-rate texts, and the ordered driver
  calls each operator action issues.
 */
module Coordinator {
  import opened Wrappers
  import opened SyringeCatalog
  import opened Validation
  import opened Driver

  /** The fleet-wide state `curr_state`. */
  datatype Mode = Running | Stopped

  /** What the status bar shows. */
  datatype Status = ShowRunning | ShowStopped | ShowPriming

  /** What the last-command bar reports, without its formatting. */
  datatype Msg =
    | Blank
    | StoppedAll
    | Updated(actual: map<int, string>)
    | Ran(actual: map<int, string>)
    | SyringeSet(pump: int, name: string, confirmed: string)
    | CantChangeSyringe
    | PrimingPump(pump: int)
    | StoppedPump(pump: int)
    | CantPrime

  /** How an operator action ended. */
  datatype Outcome =
    | Done
    | Rejected  // refused in the Running state, reported on the last-command bar
    | Raised    // the handler raises a Python exception before issuing any driver call

  /** The status bar as a function of the fleet state: priming shows only while stopped. */
  function StatusOf(mode: Mode, primeSet: set<int>): Status {
    if mode == Running then ShowRunning
    else if primeSet == {} then ShowStopped
    else ShowPriming
  }

  /** The priming set after the `prime_pumps` toggle of `p`: `p` flips in or out, nothing else changes. */
  function Toggled(s: set<int>, p: int): (t: set<int>)
    ensures p in t <==> p !in s
    ensures t - {p} == s - {p}
  {
    if p in s then s - {p} else s + {p}
  }

  /** Two toggles of the same pump restore the priming set. */
  lemma ToggleTwice(s: set<int>, p: int)
    ensures Toggled(Toggled(s, p), p) == s
  {
  }

  /** The displayed rate of every pump after `stop_all`. */
  const ZeroFlow := "0 ul/hr"

  /** Appends the unit the display uses to a rate reported by the driver. */
  function Flow(rate: string): string {
    rate + " ul/hr"
  }

  /** The displayed rates after a `get_rates` reply: replied pumps show their rate, others keep theirs. */
  function ApplyReply(flow: map<int, string>, reply: map<int, string>): (shown: map<int, string>)
    ensures shown.Keys == flow.Keys
  {
    map p | p in flow :: if p in reply then Flow(reply[p]) else flow[p]
  }

  /** The same text for every pump of `ps`. */
  function Uniform(ps: seq<int>, text: string): (m: map<int, string>)
    ensures m.Keys == set p | p in ps
    ensures forall p :: p in m ==> m[p] == text
  {
    map p | p in ps :: text
  }

  /** Everything an operator sees, apart from the rate and volume texts they typed. */
  datatype Screen = Screen(mode: Mode, status: Status, lastCommand: Msg, primeSet: set<int>, currflow: map<int, string>)

  /** Pairwise distinct pump ids. */
  predicate Distinct(ps: seq<int>) {
    forall i, j :: 0 <= i < j < |ps| ==> ps[i] != ps[j]
  }

  class PumpControl {
    /** The pump ids `find_pumps` returned, in order. */
    var pumps: seq<int>
    var mode: Mode
    var status: Status
    var lastCommand: Msg
    /** `prime_state`: the pumps toggled into priming. */
    var primeSet: set<int>
    /** The operator's rate text per pump. */
    var rateField: map<int, string>
    /** The operator's volume text per pump. */
    var volumeField: map<int, string>
    /** `currflow`: the displayed actual rate per pump. */
    var currflow: map<int, string>
    /** Every driver call issued, in order. */
    var trace: seq<Cmd>

    function PumpSet(): set<int>
      reads this
    {
      set p | p in pumps
    }

    /** The state shown to the operator. */
    function View(): Screen
      reads this
    {
      Screen(mode, status, lastCommand, primeSet, currflow)
    }

    /** The device view implied by the calls issued so far. */
    function Device(): DeviceView
      reads this
    {
      Replay(Idle, trace)
    }

    /** The per-pump records cover exactly the discovered pumps, and the status bar agrees with the mode. */
    ghost predicate Wf()
      reads this
    {
      Distinct(pumps)
      && rateField.Keys == PumpSet()
      && volumeField.Keys == PumpSet()
      && currflow.Keys == PumpSet()
      && primeSet <= PumpSet()
      && status == StatusOf(mode, primeSet)
    }

    /**
      The object invariant: in addition, the recorded mode is the one the
      issued calls imply, and while stopped the priming set is exactly the set
      of pumps the issued calls left priming. (While running it need not be:
      `run_update` stops the fleet without clearing the priming set.)
     */
    ghost predicate Valid()
      reads this
    {
      Wf()
      && Device().running == (mode == Running)
      && (mode == Stopped ==> Device().priming == primeSet)
    }

    /**
      `initUI`: discover the pumps, start in the Running state with an empty
      priming set, then `run_update`, `stop_all` and `update_syringe` for every
      pump with the selector on its first entry, and clear the last-command bar.
      `initReply` is the driver's answer to the start-up `get_rates`,
      `confirmations` its answers to the start-up `get_diameter` calls.
      The last-command bar is placed below the row of the last pump, so
      `initUI` raises when no pump is found: `found` must not be empty.
     */
    constructor (found: seq<int>, initReply: map<int, string>, confirmations: seq<string>)
      requires found != []
      requires Distinct(found)
      requires initReply.Keys <= set p | p in found
      requires |confirmations| == |found|
      ensures Valid()
      ensures pumps == found && mode == Stopped && primeSet == {}
      ensures status == ShowStopped && lastCommand == Blank
      ensures rateField == Uniform(found, "0")
      ensures volumeField == Uniform(found, "")
      ensures currflow == Uniform(found, ZeroFlow)
      ensures trace == [FindPumps]
                     + RunCmds(true, Uniform(found, "0"), found)
                     + [Cmd.StopAll]
                     + InitSyringeCmds(found, Syringes[DefaultSyringe])
    {
      pumps := found;
      rateField := Uniform(found, "");
      volumeField := Uniform(found, "");
      currflow := Uniform(found, "");
      mode := Running;
      status := ShowRunning;
      lastCommand := Blank;
      primeSet := {};
      trace := [FindPumps];
      new;
      Initialise(initReply);
      InitSyringes(confirmations);
      lastCommand := Blank;
    }

    /**
      The start-up reset of `initUI`: `run_update` over the empty rate fields,
      then `stop_all`.
     */
    method Initialise(initReply: map<int, string>)
      requires Wf() && mode == Running && primeSet == {}
      requires rateField == Uniform(pumps, "")
      requires initReply.Keys <= PumpSet()
      modifies this`trace, this`mode, this`status, this`lastCommand, this`rateField, this`currflow, this`primeSet
      ensures Valid()
      ensures mode == Stopped && primeSet == {} && status == ShowStopped
      ensures rateField == Uniform(pumps, "0")
      ensures currflow == Uniform(pumps, ZeroFlow)
      ensures trace == old(trace) + RunCmds(true, Uniform(pumps, "0"), pumps) + [Cmd.StopAll]
      ensures lastCommand == StoppedAll
    {
      RunUpdateInit(initReply);
      StopAll();
    }

    /** The start-up `update_syringe` of every pump, in order, with the selector on the first catalog entry. */
    method InitSyringes(confirmations: seq<string>)
      requires Valid() && mode == Stopped
      requires |confirmations| == |pumps|
      modifies this`trace, this`lastCommand
      ensures Valid()
      ensures trace == old(trace) + InitSyringeCmds(pumps, Syringes[DefaultSyringe])
      ensures pumps == [] ==> lastCommand == old(lastCommand)
      ensures pumps != [] ==>
        lastCommand == SyringeSet(pumps[|pumps| - 1], DefaultSyringe, confirmations[|pumps| - 1])
    {
      DefaultIsFirstSorted();
      ghost var before := trace;
      var i := 0;
      while i < |pumps|
        invariant 0 <= i <= |pumps|
        invariant Valid()
        invariant trace == before + InitSyringeCmds(pumps[..i], Syringes[DefaultSyringe])
        invariant i == 0 ==> lastCommand == old(lastCommand)
        invariant i > 0 ==> lastCommand == SyringeSet(pumps[i - 1], DefaultSyringe, confirmations[i - 1])
      {
        var _ := UpdateSyringe(pumps[i], DefaultSyringe, confirmations[i]);
        assert pumps[..i + 1][..i] == pumps[..i];
        i := i + 1;
      }
      assert pumps[..i] == pumps;
    }

    /** The start-up `run_update`, whose empty rate fields are all reset to "0". */
    method RunUpdateInit(reply: map<int, string>)
      requires Wf() && mode == Running
      requires rateField == Uniform(pumps, "")
      requires reply.Keys <= PumpSet()
      modifies this`trace, this`mode, this`status, this`lastCommand, this`rateField, this`currflow
      ensures Valid()
      ensures mode == Running && status == ShowRunning
      ensures rateField == Uniform(pumps, "0")
      ensures trace == old(trace) + RunCmds(true, Uniform(pumps, "0"), pumps)
      ensures currflow == ApplyReply(old(currflow), reply) && lastCommand == Updated(reply)
    {
      ghost var fields := rateField;
      forall p | p in fields
        ensures ResetField(fields[p]) == "0" && ResolveRate(fields[p]) == "0"
      {
        RejectedExamples();
      }
      assert ResetFields(fields) == Uniform(pumps, "0");
      assert ResolvedRates(fields) == Uniform(pumps, "0");
      RunUpdate(reply);
    }

    /** An operator edit of the rate field of `pump`. */
    method SetRateText(pump: int, text: string)
      requires Valid() && pump in pumps
      modifies this`rateField
      ensures Valid()
      ensures rateField == old(rateField)[pump := text]
    {
      rateField := rateField[pump := text];
    }

    /** An operator edit of the volume field of `pump`. */
    method SetVolumeText(pump: int, text: string)
      requires Valid() && pump in pumps
      modifies this`volumeField
      ensures Valid()
      ensures volumeField == old(volumeField)[pump := text]
    {
      volumeField := volumeField[pump := text];
    }

    /**
      `stop_all`: one fleet-wide stop call; the fleet is Stopped, nothing is
      priming and every pump shows zero flow. The new state does not depend
      on the old one, so a second call changes only the trace.
     */
    method StopAll()
      requires Wf()
      modifies this`trace, this`mode, this`status, this`lastCommand, this`currflow, this`primeSet
      ensures Valid()
      ensures trace == old(trace) + [Cmd.StopAll]
      ensures mode == Stopped && primeSet == {} && status == ShowStopped
      ensures currflow == Uniform(pumps, ZeroFlow)
      ensures lastCommand == StoppedAll
    {
      ghost var t0 := trace;
      trace := trace + [Cmd.StopAll];
      ReplayAppend(Idle, t0, [Cmd.StopAll]);
      ReplayOne(Replay(Idle, t0), Cmd.StopAll);
      mode := Stopped;
      status := ShowStopped;
      lastCommand := StoppedAll;
      ShowZeroFlow();
      primeSet := {};
    }

    /** `shutdown`: `stop_all` before the serial port is closed. */
    method Shutdown()
      requires Wf()
      modifies this`trace, this`mode, this`status, this`lastCommand, this`currflow, this`primeSet
      ensures Valid()
      ensures trace == old(trace) + [Cmd.StopAll]
      ensures mode == Stopped && primeSet == {} && status == ShowStopped
      ensures currflow == Uniform(pumps, ZeroFlow)
      ensures lastCommand == StoppedAll
    {
      StopAll();
    }

    /** Shows zero flow on the display of every pump. */
    method ShowZeroFlow()
      requires currflow.Keys == PumpSet()
      modifies this`currflow
      ensures currflow == Uniform(pumps, ZeroFlow)
    {
      var i := 0;
      while i < |pumps|
        invariant 0 <= i <= |pumps|
        invariant currflow.Keys == PumpSet()
        invariant forall k :: 0 <= k < i ==> currflow[pumps[k]] == ZeroFlow
      {
        currflow := currflow[pumps[i] := ZeroFlow];
        i := i + 1;
      }
      forall p | p in currflow
        ensures currflow[p] == ZeroFlow
      {
        var k :| 0 <= k < |pumps| && pumps[k] == p;
      }
    }

    /** Shows the rates of a `get_rates` reply on the display of the pumps it names. */
    method ShowRates(reply: map<int, string>)
      requires reply.Keys <= currflow.Keys
      modifies this`currflow
      ensures currflow == ApplyReply(old(currflow), reply)
    {
      var todo := reply.Keys;
      while todo != {}
        invariant todo <= reply.Keys
        invariant currflow.Keys == old(currflow).Keys
        invariant forall p :: p in currflow ==>
          currflow[p] == if p in reply && p !in todo then Flow(reply[p]) else old(currflow)[p]
        decreases todo
      {
        assert (forall q :: q !in todo) ==> todo == {};
        var q :| q in todo;
        currflow := currflow[q := Flow(reply[q])];
        todo := todo - {q};
      }
      ghost var shown := ApplyReply(old(currflow), reply);
      assert currflow.Keys == shown.Keys;
      assert forall p :: p in currflow ==> currflow[p] == shown[p];
    }

    /**
      One step of the loop of `run_update`: the rate of `pump` is its stripped
      text if that passes the test; otherwise it is "0" and the field is
      reset to "0".
     */
    method NormaliseRate(pump: int) returns (sent: string)
      requires pump in rateField
      modifies this`rateField
      ensures sent == ResolveRate(old(rateField)[pump])
      ensures rateField == old(rateField)[pump := ResetField(old(rateField)[pump])]
    {
      var raw := rateField[pump];
      if RateAccepted(raw) {
        sent := Trim(raw);
      } else {
        sent := "0";
        rateField := rateField[pump := "0"];
      }
    }

    /**
      The loop of `run_update` over the rate fields (a dictionary, so in no
      particular order as far as the result goes): each pump's rate is its
      resolved text, and each rejected field is reset to "0".
     */
    method NormaliseRates() returns (rates: map<int, string>)
      modifies this`rateField
      ensures rates == ResolvedRates(old(rateField))
      ensures rateField == ResetFields(old(rateField))
    {
      ghost var fields := rateField;
      rates := map[];
      var todo := rateField.Keys;
      while todo != {}
        invariant todo <= fields.Keys
        invariant rateField.Keys == fields.Keys
        invariant rates.Keys == fields.Keys - todo
        invariant forall p :: p in rates ==> rates[p] == ResolveRate(fields[p])
        invariant forall p :: p in rateField ==>
          rateField[p] == if p in todo then fields[p] else ResetField(fields[p])
        decreases todo
      {
        assert (forall p :: p !in todo) ==> todo == {};
        var p :| p in todo;
        var sent := NormaliseRate(p);
        rates := rates[p := sent];
        todo := todo - {p};
      }
      ghost var sent, reset := ResolvedRates(fields), ResetFields(fields);
      assert rates.Keys == sent.Keys && rateField.Keys == reset.Keys;
      assert forall p :: p in rates ==> rates[p] == sent[p];
      assert forall p :: p in rateField ==> rateField[p] == reset[p];
    }

    /**
      `run_update`: the rate of every pump is its resolved text (rejected
      fields are reset to "0"); from Running the fleet is stopped first, from
      Stopped it is not; either way it ends Running, the displayed rates are
      those the driver reports, and the priming set is left as it was.
     */
    method RunUpdate(reply: map<int, string>)
      requires Wf()
      requires reply.Keys <= PumpSet()
      modifies this`trace, this`mode, this`status, this`lastCommand, this`rateField, this`currflow
      ensures Valid()
      ensures trace == old(trace) + RunCmds(old(mode) == Running, ResolvedRates(old(rateField)), pumps)
      ensures mode == Running && status == ShowRunning
      ensures rateField == ResetFields(old(rateField))
      ensures currflow == ApplyReply(old(currflow), reply)
      ensures lastCommand == if old(mode) == Running then Updated(reply) else Ran(reply)
    {
      ghost var t0, wasRunning := trace, mode == Running;
      var rates := NormaliseRates();
      if mode == Running {
        Update(rates, reply);
      }
      if mode == Stopped {
        Run(rates, reply);
      }
      assert trace == t0 + RunCmds(wasRunning, rates, pumps);
      ReplayAppend(Idle, t0, RunCmds(wasRunning, rates, pumps));
      RunCmdsEffect(Replay(Idle, t0), wasRunning, rates, pumps);
    }

    /** The Running branch of `run_update`: stop, set the rates, run, and show the reported rates. */
    method Update(rates: map<int, string>, reply: map<int, string>)
      requires reply.Keys <= currflow.Keys
      modifies this`trace, this`lastCommand, this`currflow
      ensures trace == old(trace) + RunCmds(true, rates, pumps)
      ensures lastCommand == Updated(reply)
      ensures currflow == ApplyReply(old(currflow), reply)
    {
      trace := trace + [Cmd.StopAll, SetRates(rates), RunAll, GetRates(pumps)];
      lastCommand := Updated(reply);
      ShowRates(reply);
    }

    /** The Stopped branch of `run_update`: set the rates, run, enter Running, and show the reported rates. */
    method Run(rates: map<int, string>, reply: map<int, string>)
      requires reply.Keys <= currflow.Keys
      modifies this`trace, this`mode, this`status, this`lastCommand, this`currflow
      ensures trace == old(trace) + RunCmds(false, rates, pumps)
      ensures mode == Running && status == ShowRunning
      ensures lastCommand == Ran(reply)
      ensures currflow == ApplyReply(old(currflow), reply)
    {
      trace := trace + [SetRates(rates), RunAll];
      mode := Running;
      status := ShowRunning;
      trace := trace + [GetRates(pumps)];
      lastCommand := Ran(reply);
      ShowRates(reply);
    }

    /**
      `update_syringe`: while Stopped, set the diameter the catalog gives for
      `name` and read it back (`confirmed` is the driver's answer); a name
      outside the catalog raises before any call. While Running, nothing is
      sent and the refusal is reported.
     */
    method UpdateSyringe(pump: int, name: string, confirmed: string) returns (outcome: Outcome)
      requires Valid() && pump in pumps
      modifies this`trace, this`lastCommand
      ensures Valid()
      ensures old(mode) == Stopped && name in Syringes ==>
        outcome == Done && trace == old(trace) + SyringeCmds(pump, Syringes[name])
        && lastCommand == SyringeSet(pump, name, confirmed)
      ensures old(mode) == Stopped && name !in Syringes ==>
        outcome == Raised && trace == old(trace) && lastCommand == old(lastCommand)
      ensures old(mode) == Running ==>
        outcome == Rejected && trace == old(trace) && lastCommand == CantChangeSyringe
      ensures name in Selector ==> outcome != Raised
    {
      if mode == Stopped {
        match Diameter(name)
        case None =>
          outcome := Raised;
        case Some(dia) =>
          ghost var t0 := trace;
          trace := trace + SyringeCmds(pump, dia);
          assert forall k :: 0 <= k < 2 ==> Neutral(SyringeCmds(pump, dia)[k]);
          ReplayAppend(Idle, t0, SyringeCmds(pump, dia));
          ReplayNeutral(Replay(Idle, t0), SyringeCmds(pump, dia));
          lastCommand := SyringeSet(pump, name, confirmed);
          outcome := Done;
      } else {
        lastCommand := CantChangeSyringe;
        outcome := Rejected;
      }
    }

    /**
      `prime_pumps`: while Stopped, start priming `pump` if it is not priming
      and stop that pump alone if it is, then read all rates and show the
      reported rate of `pump`. While Running, nothing changes but the
      last-command bar. `reply` is the driver's answer to `get_rates`.
     */
    method PrimePumps(pump: int, reply: map<int, string>) returns (outcome: Outcome)
      requires Valid() && pump in pumps
      requires mode == Stopped ==> pump in reply
      modifies this`trace, this`primeSet, this`status, this`lastCommand, this`currflow
      ensures Valid()
      ensures old(mode) == Stopped ==>
        outcome == Done
        && trace == old(trace) + PrimeCmds(pump, pump in old(primeSet), pumps)
        && primeSet == Toggled(old(primeSet), pump)
        && currflow == old(currflow)[pump := Flow(reply[pump])]
        && lastCommand == (if pump in old(primeSet) then StoppedPump(pump) else PrimingPump(pump))
      ensures old(mode) == Running ==>
        outcome == Rejected && trace == old(trace) && primeSet == old(primeSet)
        && currflow == old(currflow) && lastCommand == CantPrime
    {
      if mode == Stopped {
        ghost var t0, wasPriming := trace, pump in primeSet;
        TogglePrime(pump);
        trace := trace + [GetRates(pumps)];
        assert pump in PumpSet();
        currflow := currflow[pump := Flow(reply[pump])];
        assert trace == t0 + PrimeCmds(pump, wasPriming, pumps);
        ReplayAppend(Idle, t0, PrimeCmds(pump, wasPriming, pumps));
        PrimeCmdsEffect(Replay(Idle, t0), pump, wasPriming, pumps);
        outcome := Done;
      } else {
        lastCommand := CantPrime;
        outcome := Rejected;
      }
    }

    /**
      The toggle of `prime_pumps`: prime `pump` if it is not priming, and stop
      it alone if it is; the status bar shows Priming, or Stopped once the
      last priming pump is stopped.
     */
    method TogglePrime(pump: int)
      requires mode == Stopped && status == StatusOf(mode, primeSet)
      modifies this`trace, this`primeSet, this`status, this`lastCommand
      ensures trace == old(trace) + [if pump in old(primeSet) then StopPump(pump) else Prime(pump)]
      ensures primeSet == Toggled(old(primeSet), pump)
      ensures status == StatusOf(mode, primeSet)
      ensures lastCommand == if pump in old(primeSet) then StoppedPump(pump) else PrimingPump(pump)
    {
      if pump !in primeSet {
        trace := trace + [Prime(pump)];
        lastCommand := PrimingPump(pump);
        status := ShowPriming;
        primeSet := primeSet + {pump};
      } else {
        trace := trace + [StopPump(pump)];
        lastCommand := StoppedPump(pump);
        primeSet := primeSet - {pump};
        if primeSet == {} {
          status := ShowStopped;
        }
      }
    }

    /**
      `deliver_volume`: while Stopped, set the volume of `pump` to what
      `float` makes of its stripped volume text (`parse`), or to 50.0 when
      that fails, and run that pump. While Running, the volume is never bound
      and the handler raises before any driver call.
     */
    method DeliverVolume(pump: int, parse: string -> Option<real>) returns (outcome: Outcome)
      requires Valid() && pump in pumps
      modifies this`trace
      ensures Valid()
      ensures old(mode) == Stopped ==>
        outcome == Done
        && trace == old(trace) + DeliverCmds(pump, DeliveredVolume(parse(Trim(volumeField[pump]))))
      ensures old(mode) == Running ==> outcome == Raised && trace == old(trace)
    {
      if mode == Stopped {
        var vol := DeliveredVolume(parse(Trim(volumeField[pump])));
        ghost var t0 := trace;
        trace := trace + DeliverCmds(pump, vol);
        assert forall k :: 0 <= k < 2 ==> Neutral(DeliverCmds(pump, vol)[k]);
        ReplayAppend(Idle, t0, DeliverCmds(pump, vol));
        ReplayNeutral(Replay(Idle, t0), DeliverCmds(pump, vol));
        outcome := Done;
      } else {
        outcome := Raised;
      }
    }

    /**
      `habituate`: in either state, dispense then withdraw `pump` for the
      fixed duration; the mode and the priming set are left alone.
     */
    method Habituate(pump: int)
      requires Valid()
      modifies this`trace
      ensures Valid()
      ensures trace == old(trace) + HabituateCmds(pump)
    {
      ghost var t0 := trace;
      trace := trace + [SetDirect(pump, 1)];
      trace := trace + [RunStop(pump, HabituationDuration)];
      trace := trace + [SetDirect(pump, -1)];
      trace := trace + [RunStop(pump, HabituationDuration)];
      assert trace == t0 + HabituateCmds(pump);
      assert forall k :: 0 <= k < 4 ==> Neutral(HabituateCmds(pump)[k]);
      ReplayAppend(Idle, t0, HabituateCmds(pump));
      ReplayNeutral(Replay(Idle, t0), HabituateCmds(pump));
    }
  }
}
