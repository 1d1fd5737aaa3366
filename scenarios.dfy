/**
  Operator sessions against a `PumpControl`: the idempotence of `stop_all`,
  the refusal to prime while running, and concrete sessions on a three-pump
  fleet.
 */
module Scenarios {
  import opened Wrappers
  import opened SyringeCatalog
  import opened Validation
  import opened Driver
  import opened Coordinator

  /** The three pumps of the concrete sessions, in discovery order. */
  const Fleet: seq<int> := [1, 2, 3]

  /** The start-up `get_diameter` answers of the concrete sessions. */
  const Confirmed: seq<string> := ["4.699", "4.699", "4.699"]

  /** The three-pump fleet right after start-up: stopped, every rate field reading "0". */
  method StartFleet(startReply: map<int, string>) returns (c: PumpControl)
    requires startReply.Keys <= {1, 2, 3}
    ensures fresh(c) && c.Valid()
    ensures c.pumps == Fleet && c.mode == Stopped && c.rateField == Uniform(Fleet, "0")
  {
    c := new PumpControl(Fleet, startReply, Confirmed);
  }

  /**
    A second `stop_all` issues one more stop call and leaves everything the
    operator sees as the first one left it.
   */
  method StopAllTwice(c: PumpControl) returns (afterFirst: Screen)
    requires c.Wf()
    modifies c
    ensures c.Valid()
    ensures c.View() == afterFirst
    ensures c.trace == old(c.trace) + [Cmd.StopAll, Cmd.StopAll]
  {
    c.StopAll();
    afterFirst := c.View();
    c.StopAll();
  }

  /** Fields that all read "0" send "0" to every pump and stay as they are. */
  lemma ZeroFieldsSendZero(ps: seq<int>)
    ensures ResolvedRates(Uniform(ps, "0")) == Uniform(ps, "0")
    ensures ResetFields(Uniform(ps, "0")) == Uniform(ps, "0")
  {
    var zero := Uniform(ps, "0");
    ZeroRejected();
    var sent, reset := ResolvedRates(zero), ResetFields(zero);
    assert sent.Keys == zero.Keys && reset.Keys == zero.Keys;
    assert forall p :: p in zero ==> sent[p] == zero[p] && reset[p] == zero[p];
  }

  /**
    The rate fields of the first session: pump 1 reads "100", pump 2 reads
    "12.5", pump 3 kept its "0"; pump 1 is sent "100" and every other pump "0".
   */
  lemma FirstSessionRates()
    ensures ResolvedRates(Uniform(Fleet, "0")[1 := "100"][2 := "12.5"]) == Uniform(Fleet, "0")[1 := "100"][2 := "0"]
    ensures ResetFields(Uniform(Fleet, "0")[1 := "100"][2 := "12.5"]) == Uniform(Fleet, "0")[1 := "100"][2 := "0"]
  {
    var zero := Uniform(Fleet, "0");
    AcceptedExamples();
    RejectedExamples();
    ZeroFieldsSendZero(Fleet);
    EditOneField(zero, 1, "100");
    EditOneField(zero[1 := "100"], 2, "12.5");
  }

  /**
    Start up, type "100" for pump 1 and "12.5" for pump 2, press Run/Update:
    from Stopped, pump 1 is sent "100" and pumps 2 and 3 are sent "0", the
    field of pump 2 is reset to "0", and the fleet is running.
   */
  method FirstSession(startReply: map<int, string>, reply: map<int, string>)
    returns (sent: seq<Cmd>, fields: map<int, string>, mode: Mode)
    requires startReply.Keys <= {1, 2, 3} && reply.Keys <= {1, 2, 3}
    ensures sent == [SetRates(Uniform(Fleet, "0")[1 := "100"][2 := "0"]), RunAll, GetRates(Fleet)]
    ensures fields == Uniform(Fleet, "0")[1 := "100"][2 := "0"]
    ensures mode == Running
  {
    var c := StartFleet(startReply);
    c.SetRateText(1, "100");
    c.SetRateText(2, "12.5");
    var before := |c.trace|;
    c.RunUpdate(reply);
    FirstSessionRates();
    sent := c.trace[before..];
    fields := c.rateField;
    mode := c.mode;
  }

  /** Selecting " 5 ml BD" for pump 2 while stopped sets the diameter 11.99 and reads it back. */
  method SyringeSession(startReply: map<int, string>, confirmed: string)
    returns (outcome: Outcome, sent: seq<Cmd>)
    requires startReply.Keys <= {1, 2, 3}
    ensures outcome == Done
    ensures sent == [SetDiameter(2, "11.99"), GetDiameter(2)]
  {
    var c := StartFleet(startReply);
    var before := |c.trace|;
    outcome := c.UpdateSyringe(2, " 5 ml BD", confirmed);
    sent := c.trace[before..];
  }

  /**
    After a Run/Update the fleet is running, and priming is refused: no call
    is issued, the priming set is left alone and the refusal is reported.
   */
  method PrimeWhileRunning(c: PumpControl, pump: int, reply: map<int, string>, primeReply: map<int, string>)
    returns (outcome: Outcome, sent: seq<Cmd>)
    requires c.Wf() && pump in c.pumps && reply.Keys <= c.PumpSet()
    modifies c
    ensures outcome == Rejected && sent == []
    ensures c.primeSet == old(c.primeSet) && c.lastCommand == CantPrime
  {
    c.RunUpdate(reply);
    var before := |c.trace|;
    outcome := c.PrimePumps(pump, primeReply);
    sent := c.trace[before..];
  }

  /** A volume text that does not parse delivers the default 50.0 to that pump. */
  method DefaultVolumeSession(startReply: map<int, string>, parse: string -> Option<real>)
    returns (outcome: Outcome, sent: seq<Cmd>)
    requires startReply.Keys <= {1, 2, 3} && parse("abc") == None
    ensures outcome == Done
    ensures sent == [SetVol(3, 50.0), RunPump(3)]
  {
    var c := StartFleet(startReply);
    c.SetVolumeText(3, "abc");
    var before := |c.trace|;
    assert Trim("abc") == "abc";
    outcome := c.DeliverVolume(3, parse);
    sent := c.trace[before..];
  }
}
