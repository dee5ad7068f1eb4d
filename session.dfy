/** The script's top level (reader.py:53-149) without its console output: the adapter
    set-up steps with their exact-reply checks (reader.py:59-100), the bus connection
    retry loop (reader.py:104-126), then the protocol query, the VIN and the two
    trouble-code reports. */
module Session {
  import opened Failures
  import opened Text
  import opened Serial
  import opened FrameReader
  import opened TroubleCodeDecoder
  import opened Vin

  /** Seconds the script counts down before each probe (`ELM_CONNECT_SETTLE_PERIOD`). */
  const SettlePeriod := 5
  /** Probes allowed; the loop starts `num_tries` at this literal. */
  const TryBudget := 5
  /** The adapter's reply text when the bus does not answer. */
  const NoBusMarker := "UNABLE TO CONNECT"

  const ResetCommand := "AT Z\r"
  const EchoOffCommand := "AT E0\r"
  const SpacesOffCommand := "AT S0\r"
  const ProtocolCommand := "AT SP A3\r"
  const BaudCommand := "AT IB 10\r"
  const DescriptionCommand := "AT @1\r"
  const UserDescriptionCommand := "AT @2\r"
  const VoltageCommand := "AT RV\r"
  /** Mode 1 PID 0, the bus probe. */
  const ProbeCommand := "0100\r"
  const ProtocolQuery := "AT DP\r"
  const VinQuery := "0902\r"
  /** Mode 03: stored trouble codes. */
  const StoredMode := "03"
  /** Mode 07: pending trouble codes. */
  const PendingMode := "07"

  /** The exact reply that counts as success for echo-off. */
  const EchoOffReply := "AT E0\nOK\n"
  /** The exact reply that counts as success for the other checked steps. */
  const OkReply := "OK\n"

  /** The eight set-up commands, in the order the script sends them. */
  const SetupCommands := [ResetCommand, EchoOffCommand, SpacesOffCommand, ProtocolCommand,
                          BaudCommand, DescriptionCommand, UserDescriptionCommand, VoltageCommand]

  /** The commands sent once the bus is connected, before the trouble-code reports. */
  const IdentityCommands := [ProtocolQuery, VinQuery]

  /** What the set-up steps report: the replies the script prints and, for the four
      checked steps, whether the reply was the exact expected literal. */
  datatype Setup = Setup(
    reset: string,
    echoOff: bool,
    spacesOff: bool,
    protocolSet: bool,
    baudSet: bool,
    description: string,
    userDescription: string,
    voltage: string)

  /** Where the script stopped when a decoding step raised. */
  datatype Stage = VinStage | StoredStage | PendingStage

  /** What happens once the bus is connected: every report read, or the step whose
      decoding raised. */
  datatype Diagnosis =
    | Crashed(protocol: string, stage: Stage, failure: Failure)
    | Finished(protocol: string, vin: seq<byte>, stored: string, pending: string)

  datatype Outcome =
    | Disconnected(setup: Setup, probes: nat)
    | Connected(setup: Setup, probes: nat, diagnosis: Diagnosis)

  /** The set-up results when the adapter's output is `input`. Every step runs whatever
      the earlier checks said. */
  function SetupOf(input: string): (setup: Setup)
    ensures setup.echoOff <==> ResponseAt(input, 1) == "AT E0\nOK\n"
    ensures setup.spacesOff <==> ResponseAt(input, 2) == "OK\n"
    ensures setup.protocolSet <==> ResponseAt(input, 3) == "OK\n"
    ensures setup.baudSet <==> ResponseAt(input, 4) == "OK\n"
    ensures Prompt !in setup.reset && '\r' !in setup.reset
    ensures Prompt !in setup.voltage && '\r' !in setup.voltage
  {
    ResponseHasNoPromptOrCarriageReturn(After(input, 0));
    ResponseHasNoPromptOrCarriageReturn(After(input, 7));
    Setup(
      ResponseAt(input, 0),
      ResponseAt(input, 1) == EchoOffReply,
      ResponseAt(input, 2) == OkReply,
      ResponseAt(input, 3) == OkReply,
      ResponseAt(input, 4) == OkReply,
      ResponseAt(input, 5),
      ResponseAt(input, 6),
      ResponseAt(input, 7))
  }

  /** A checked step passes on `OK` followed by `k` line-end characters exactly when
      `k` is one or two: the pair collapse turns two into one, but three leave a blank
      line behind and the exact comparison fails. */
  lemma OkReplyAccepted(ends: string)
    requires forall i :: 0 <= i < |ends| ==> ends[i] == '\r' || ends[i] == '\n'
    ensures Normalize("OK" + ends) == OkReply <==> |ends| == 1 || |ends| == 2
  {
    var n := (|ends| + 1) / 2;
    NormalizeRun(ends, "");
    assert ends + "" == ends;
    assert Normalize("") == "";
    NormalizeKeepsText('K', ends);
    NormalizeKeepsText('O', ['K'] + ends);
    assert "OK" + ends == ['O'] + (['K'] + ends);
    assert Normalize("OK" + ends) == "OK" + Repeat('\n', n);
    if n == 1 {
      RepeatCons('\n', 0);
    } else {
      assert |"OK" + Repeat('\n', n)| != |OkReply|;
    }
  }

  /** The probe reply says the bus did not answer. */
  predicate NoBus(response: string)
  {
    Contains(response, NoBusMarker)
  }

  /** How many probes the retry loop sends with `budget` tries left, reading the
      adapter's output `input`. */
  function Probes(input: string, budget: nat): (probes: nat)
    decreases budget
    ensures probes <= budget
    ensures budget > 0 ==> probes >= 1
  {
    if budget == 0 then 0
    else if NoBus(Response(input)) then 1 + Probes(Rest(input), budget - 1)
    else 1
  }

  /** Whether the retry loop ends with a reply that lacks the marker. */
  predicate Connects(input: string, budget: nat): (connected: bool)
    decreases budget
    ensures connected ==> budget > 0
    ensures budget > 0 && !NoBus(Response(input)) ==> connected
  {
    budget > 0 && (NoBus(Response(input)) ==> Connects(Rest(input), budget - 1))
  }

  /** The loop stops at the first reply without the marker: every probe before the last
      failed, the last decides the outcome, and a failed connection used every try. */
  lemma ProbesStopAtFirstAnswer(input: string, budget: nat)
    requires budget > 0
    ensures 1 <= Probes(input, budget) <= budget
    ensures forall i :: 0 <= i < Probes(input, budget) - 1 ==> NoBus(ResponseAt(input, i))
    ensures Connects(input, budget) <==> !NoBus(ResponseAt(input, Probes(input, budget) - 1))
    ensures !Connects(input, budget) ==> Probes(input, budget) == budget
  {
    ProbesFailBeforeLast(input, budget);
    ProbesDecide(input, budget);
    ProbesExhausted(input, budget);
  }

  /** Every probe before the last one met the marker. */
  lemma {:induction false} ProbesFailBeforeLast(input: string, budget: nat)
    requires budget > 0
    ensures forall i :: 0 <= i < Probes(input, budget) - 1 ==> NoBus(ResponseAt(input, i))
    decreases budget
  {
    ProbeStep(input, budget);
    if NoBus(Response(input)) && budget > 1 {
      ProbesFailBeforeLast(Rest(input), budget - 1);
      assert ResponseAt(input, 0) == Response(input);
      FailuresShift(input, Probes(Rest(input), budget - 1));
    }
  }

  /** The last probe's reply decides whether the loop connects. */
  lemma {:induction false} ProbesDecide(input: string, budget: nat)
    requires budget > 0
    ensures Connects(input, budget) <==> !NoBus(ResponseAt(input, Probes(input, budget) - 1))
    decreases budget
  {
    if NoBus(Response(input)) && budget > 1 {
      ProbesDecide(Rest(input), budget - 1);
      DecideAfterMiss(input, budget);
    } else {
      ProbeStep(input, budget);
      assert ResponseAt(input, 0) == Response(input);
      assert Probes(input, budget) == 1;
    }
  }

  /** After a reply with the marker, the rest of the input decides the connection. */
  lemma DecideAfterMiss(input: string, budget: nat)
    requires budget > 1 && NoBus(Response(input))
    requires Connects(Rest(input), budget - 1) <==> !NoBus(ResponseAt(Rest(input), Probes(Rest(input), budget - 1) - 1))
    ensures Connects(input, budget) <==> !NoBus(ResponseAt(input, Probes(input, budget) - 1))
  {
    ProbeStep(input, budget);
    ResponseAtRest(input, Probes(Rest(input), budget - 1) - 1);
  }

  /** A loop that never connects spends its whole budget. */
  lemma {:induction false} ProbesExhausted(input: string, budget: nat)
    requires budget > 0
    ensures !Connects(input, budget) ==> Probes(input, budget) == budget
    decreases budget
  {
    ProbeStep(input, budget);
    if NoBus(Response(input)) && budget > 1 {
      ProbesExhausted(Rest(input), budget - 1);
    }
  }

  /** Failed probes on the input after the first reply, shifted back by that reply. */
  lemma FailuresShift(input: string, n: nat)
    requires NoBus(ResponseAt(input, 0))
    requires forall i :: 0 <= i < n - 1 ==> NoBus(ResponseAt(Rest(input), i))
    ensures forall i :: 0 <= i < n ==> NoBus(ResponseAt(input, i))
  {
    forall i | 0 < i < n
      ensures NoBus(ResponseAt(input, i))
    {
      ResponseAtRest(input, i - 1);
    }
  }

  /** With `f` failing probes before the bus answers, the loop sends min(f+1, budget)
      probes and connects exactly when `f` is below the budget. */
  lemma {:induction false} ConnectAfterFailures(input: string, budget: nat, f: nat)
    requires forall i :: 0 <= i < f && i < budget ==> NoBus(ResponseAt(input, i))
    requires f < budget ==> !NoBus(ResponseAt(input, f))
    ensures Probes(input, budget) == if f + 1 < budget then f + 1 else budget
    ensures Connects(input, budget) <==> f < budget
    decreases budget
  {
    if budget > 0 && f > 0 {
      assert NoBus(ResponseAt(input, 0));
      forall i | 0 <= i < f - 1 && i < budget - 1
        ensures NoBus(ResponseAt(Rest(input), i))
      {
        AfterRest(input, i);
        assert NoBus(ResponseAt(input, i + 1));
      }
      if f - 1 < budget - 1 {
        AfterRest(input, f - 1);
      }
      ConnectAfterFailures(Rest(input), budget - 1, f - 1);
    }
  }

  /** One round of the retry loop: a failed probe leaves the rest to the remaining
      tries, an answered one ends the loop connected. */
  lemma ProbeStep(input: string, budget: nat)
    requires budget > 0
    ensures NoBus(Response(input)) ==>
      Probes(input, budget) == 1 + Probes(Rest(input), budget - 1) &&
      Connects(input, budget) == Connects(Rest(input), budget - 1)
    ensures !NoBus(Response(input)) ==> Probes(input, budget) == 1 && Connects(input, budget)
  {
  }

  /** One more probe extends the log by one probe command. */
  lemma ProbeLog(log: seq<string>, c: seq<string>, n: nat)
    requires c == log + Repeat(ProbeCommand, n)
    ensures c + [ProbeCommand] == log + Repeat(ProbeCommand, n + 1)
  {
    assert Repeat(ProbeCommand, n + 1) == Repeat(ProbeCommand, n) + [ProbeCommand];
  }

  /** One try of the retry loop: the `0100` request and its reply (reader.py:118). */
  method Probe(ch: Channel) returns (response: string)
    requires ch.open
    modifies ch
    ensures ch.open
    ensures response == Response(old(ch.input)) && ch.input == Rest(old(ch.input))
    ensures Commands(ch.trace) == Commands(old(ch.trace)) + [ProbeCommand]
  {
    response := GetResponse(ch, ProbeCommand);
  }

  /** The connection retry loop (reader.py:104-126, without the countdown output), run
      with `budget` tries; the script always passes `TryBudget`. `waited` counts the
      seconds of settle time spent. */
  method Connect(ch: Channel, budget: nat) returns (connected: bool, probes: nat, ghost waited: nat)
    requires ch.open
    modifies ch
    ensures ch.open
    ensures probes == Probes(old(ch.input), budget)
    ensures connected == Connects(old(ch.input), budget)
    ensures ch.input == After(old(ch.input), probes)
    ensures Commands(ch.trace) == Commands(old(ch.trace)) + Repeat(ProbeCommand, probes)
    ensures waited == probes * SettlePeriod
  {
    ghost var input := ch.input;
    ghost var log := Commands(ch.trace);
    var numTries: nat := budget;
    var response := NoBusMarker;
    probes := 0;
    waited := 0;
    assert NoBus(response) by {
      assert NoBusMarker <= response;
    }
    while NoBus(response) && numTries > 0
      invariant ch.open
      invariant numTries + probes == budget
      invariant waited == probes * SettlePeriod
      invariant ch.input == After(input, probes)
      invariant Commands(ch.trace) == log + Repeat(ProbeCommand, probes)
      invariant probes == 0 ==> NoBus(response)
      invariant NoBus(response) ==> Probes(input, budget) == probes + Probes(ch.input, numTries)
      invariant NoBus(response) ==> Connects(input, budget) == Connects(ch.input, numTries)
      invariant !NoBus(response) ==> Probes(input, budget) == probes && Connects(input, budget)
    {
      ProbeStep(ch.input, numTries);
      ProbeLog(log, Commands(ch.trace), probes);
      numTries := numTries - 1;
      waited := waited + SettlePeriod;
      response := Probe(ch);
      probes := probes + 1;
    }
    connected := !NoBus(response);
  }

  /** Eight logs, each one set-up command longer than the one before, end with all of them. */
  lemma SetupLog(c0: seq<string>, c1: seq<string>, c2: seq<string>, c3: seq<string>, c4: seq<string>,
                 c5: seq<string>, c6: seq<string>, c7: seq<string>, c8: seq<string>)
    requires c1 == c0 + [ResetCommand] && c2 == c1 + [EchoOffCommand] && c3 == c2 + [SpacesOffCommand]
    requires c4 == c3 + [ProtocolCommand] && c5 == c4 + [BaudCommand] && c6 == c5 + [DescriptionCommand]
    requires c7 == c6 + [UserDescriptionCommand] && c8 == c7 + [VoltageCommand]
    ensures c8 == c0 + SetupCommands
  {
  }

  /** The eight set-up steps (reader.py:59-100): every step runs whatever the earlier
      checks said. */
  method Configure(ch: Channel) returns (setup: Setup)
    requires ch.open
    modifies ch
    ensures ch.open
    ensures setup == SetupOf(old(ch.input))
    ensures ch.input == After(old(ch.input), |SetupCommands|)
    ensures Commands(ch.trace) == Commands(old(ch.trace)) + SetupCommands
  {
    ghost var input := ch.input;
    ghost var log := Commands(ch.trace);
    var reset := GetResponse(ch, ResetCommand);
    ghost var c1 := Commands(ch.trace);
    assert ch.input == After(input, 1);
    var echoOff := GetResponse(ch, EchoOffCommand);
    ghost var c2 := Commands(ch.trace);
    assert ch.input == After(input, 2);
    var spacesOff := GetResponse(ch, SpacesOffCommand);
    ghost var c3 := Commands(ch.trace);
    assert ch.input == After(input, 3);
    var protocolSet := GetResponse(ch, ProtocolCommand);
    ghost var c4 := Commands(ch.trace);
    assert ch.input == After(input, 4);
    var baudSet := GetResponse(ch, BaudCommand);
    ghost var c5 := Commands(ch.trace);
    assert ch.input == After(input, 5);
    var description := GetResponse(ch, DescriptionCommand);
    ghost var c6 := Commands(ch.trace);
    assert ch.input == After(input, 6);
    var userDescription := GetResponse(ch, UserDescriptionCommand);
    ghost var c7 := Commands(ch.trace);
    assert ch.input == After(input, 7);
    var voltage := GetResponse(ch, VoltageCommand);
    assert ch.input == After(input, 8);
    SetupLog(log, c1, c2, c3, c4, c5, c6, c7, Commands(ch.trace));
    setup := Setup(reset, echoOff == EchoOffReply, spacesOff == OkReply, protocolSet == OkReply,
                   baudSet == OkReply, description, userDescription, voltage);
  }

  /** What the two trouble-code reports yield, after `protocol` and `vin` were read,
      when the adapter's output from there on is `input`. */
  function ReportsOf(protocol: string, vin: seq<byte>, input: string,
                     prefixes: map<char, string>, descriptions: map<string, string>): Diagnosis
  {
    match TroubleCodeData(Response(input), prefixes, descriptions)
    case Err(e) => Crashed(protocol, StoredStage, e)
    case Ok(stored) =>
      match TroubleCodeData(Response(Rest(input)), prefixes, descriptions)
      case Err(e) => Crashed(protocol, PendingStage, e)
      case Ok(pending) => Finished(protocol, vin, stored, pending)
  }

  /** What the connected part of the script yields when the adapter's output from
      there on is `input`. */
  function DiagnosisOf(input: string, prefixes: map<char, string>, descriptions: map<string, string>): Diagnosis
  {
    var protocol := Response(input);
    match VinFromHex(Pruned(Response(Rest(input)), 3))
    case Err(e) => Crashed(protocol, VinStage, e)
    case Ok(vin) => ReportsOf(protocol, vin, After(input, 2), prefixes, descriptions)
  }

  /** The trouble-code requests sent: the pending one only once the stored one decoded. */
  function TroubleCommands(diagnosis: Diagnosis): seq<string>
  {
    match diagnosis
    case Crashed(_, VinStage, _) => []
    case Crashed(_, StoredStage, _) => [StoredMode + "\r"]
    case _ => [StoredMode + "\r", PendingMode + "\r"]
  }

  /** The VIN step (reader.py:133-135): request, prune three bytes per line, decode. */
  method ReadVin(ch: Channel) returns (vin: Result<seq<byte>>)
    requires ch.open
    modifies ch
    ensures ch.open
    ensures ch.input == Rest(old(ch.input))
    ensures Commands(ch.trace) == Commands(old(ch.trace)) + [VinQuery]
    ensures vin == VinFromHex(Pruned(Response(old(ch.input)), 3))
  {
    var response := GetResponse(ch, VinQuery);
    response := PruneData(response, 3);
    vin := VinFromHex(response);
  }

  /** A log grown by the two trouble-code requests. */
  lemma TroubleLog(c0: seq<string>, c1: seq<string>, c2: seq<string>)
    requires c1 == c0 + [StoredMode + "\r"] && c2 == c1 + [PendingMode + "\r"]
    ensures c2 == c0 + [StoredMode + "\r", PendingMode + "\r"]
  {
  }

  /** The two trouble-code reports (reader.py:139-149). A decoding failure ends the
      script there, leaving the port open; otherwise the port is closed at the end. */
  method ReadReports(ch: Channel, protocol: string, vin: seq<byte>,
                     prefixes: map<char, string>, descriptions: map<string, string>)
    returns (diagnosis: Diagnosis)
    requires ch.open
    modifies ch
    ensures diagnosis == ReportsOf(protocol, vin, old(ch.input), prefixes, descriptions)
    ensures Commands(ch.trace) == Commands(old(ch.trace)) + TroubleCommands(diagnosis)
    ensures ch.open <==> diagnosis.Crashed?
  {
    ghost var c0 := Commands(ch.trace);
    var stored := GetTroubleCodeData(ch, StoredMode, prefixes, descriptions);
    if stored.Err? {
      return Crashed(protocol, StoredStage, stored.error);
    }
    ghost var c1 := Commands(ch.trace);
    var pending := GetTroubleCodeData(ch, PendingMode, prefixes, descriptions);
    TroubleLog(c0, c1, Commands(ch.trace));
    if pending.Err? {
      return Crashed(protocol, PendingStage, pending.error);
    }
    ch.Close();
    return Finished(protocol, vin, stored.value, pending.value);
  }

  /** A log grown by the two identity queries, with nothing after them. */
  lemma IdentityLog(c0: seq<string>, c1: seq<string>, c2: seq<string>)
    requires c1 == c0 + [ProtocolQuery] && c2 == c1 + [VinQuery]
    ensures c2 == c0 + IdentityCommands
  {
  }

  /** The connected part of the script (reader.py:129-149): protocol query, VIN, stored
      and pending trouble codes. */
  method Diagnose(ch: Channel, prefixes: map<char, string>, descriptions: map<string, string>)
    returns (diagnosis: Diagnosis)
    requires ch.open
    modifies ch
    ensures diagnosis == DiagnosisOf(old(ch.input), prefixes, descriptions)
    ensures Commands(ch.trace) == Commands(old(ch.trace)) + IdentityCommands + TroubleCommands(diagnosis)
    ensures ch.open <==> diagnosis.Crashed?
  {
    ghost var input := ch.input;
    ghost var c0 := Commands(ch.trace);
    var protocol := GetResponse(ch, ProtocolQuery);
    ghost var c1 := Commands(ch.trace);
    var vin := ReadVin(ch);
    assert ch.input == After(input, 2) by {
      assert After(input, 1) == Rest(input);
    }
    IdentityLog(c0, c1, Commands(ch.trace));
    if vin.Err? {
      return Crashed(protocol, VinStage, vin.error);
    }
    diagnosis := ReadReports(ch, protocol, vin.value, prefixes, descriptions);
  }

  /** The script's result when the adapter's output is `input`. */
  function Expected(input: string, prefixes: map<char, string>, descriptions: map<string, string>): (outcome: Outcome)
    ensures 1 <= outcome.probes <= TryBudget
    ensures outcome.Disconnected? ==> outcome.probes == TryBudget
    ensures outcome.setup == SetupOf(input)
  {
    var bus := After(input, |SetupCommands|);
    ProbesStopAtFirstAnswer(bus, TryBudget);
    var probes := Probes(bus, TryBudget);
    if !Connects(bus, TryBudget) then Disconnected(SetupOf(input), probes)
    else Connected(SetupOf(input), probes, DiagnosisOf(After(bus, probes), prefixes, descriptions))
  }

  /** The whole script. A failed connection closes the port before any later command. */
  method Run(ch: Channel, prefixes: map<char, string>, descriptions: map<string, string>) returns (outcome: Outcome)
    requires ch.open
    modifies ch
    ensures outcome == Expected(old(ch.input), prefixes, descriptions)
    ensures outcome.Disconnected? ==>
      !ch.open && Commands(ch.trace) == Commands(old(ch.trace)) + SetupCommands + Repeat(ProbeCommand, outcome.probes)
    ensures outcome.Connected? ==>
      Commands(ch.trace) == Commands(old(ch.trace)) + SetupCommands + Repeat(ProbeCommand, outcome.probes)
                            + IdentityCommands + TroubleCommands(outcome.diagnosis)
    ensures outcome.Connected? ==> (ch.open <==> outcome.diagnosis.Crashed?)
  {
    var setup := Configure(ch);
    var connected, probes;
    ghost var waited;
    connected, probes, waited := Connect(ch, TryBudget);
    if !connected {
      ch.Close();
      return Disconnected(setup, probes);
    }
    var diagnosis := Diagnose(ch, prefixes, descriptions);
    return Connected(setup, probes, diagnosis);
  }
}
