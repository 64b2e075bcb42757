/** The PID commands of the SCPI server: the `PID:IN<n>:OUT<m>` header that
    names one of the four PID instances, the relock-input choice table, the
    flag commands and their ON/OFF queries, and the commands that save and
    load the lockbox configuration.

    Each handler is a method over the API's state (`Pid.PidRegisters` or
    `Snapshot.Lockbox`); the functions beside them state its result and the
    state it leaves. The SCPI parser library is not part of this model: the
    numbers of the command header and the command's parameter arrive here as
    values, `None` standing for one that is missing or does not parse, and a
    query's reply is the mnemonic the handler hands to the library. */
module ScpiPid {
  import opened Common
  import Analog
  import Pid
  import Snapshot

  /** scpi_result_t */
  datatype ScpiResult = ResOk | ResErr

  /** A handler's result for an API status: SCPI_RES_OK exactly for RP_OK. */
  function ResultOf(status: Status): (r: ScpiResult)
    ensures r == ResOk <==> status == Ok
  {
    if status == Ok then ResOk else ResErr
  }

  // ---------------------------------------------------------------------
  // The PID index of the command header

  /** SCPI_CommandNumbers with default 1: a header number that is missing
      reads as 1. */
  const DEFAULT_NUMBER: int := 1

  function CommandNumber(n: Option<int>): int {
    if n.Some? then n.value else DEFAULT_NUMBER
  }

  /** The (input, output) header numbers that name each PID instance:
      the input index is the low digit of the instance number and the output
      index the high one. */
  function PidArgs(pid: nat): (io: (int, int))
    requires pid < Pid.NUM_PIDS
  {
    (1 + pid % 2, 1 + pid / 2)
  }

  /** RP_ParsePIDArgv: RP_EOOR for an input index outside 1..2, then for an
      output index outside 1..2; otherwise the one instance whose header
      numbers are (input, output). */
  function ParsePidArgv(input: int, output: int): (r: Reading<nat>)
    ensures r.status == Ok <==> 1 <= input <= 2 && 1 <= output <= 2
    ensures r.status != Ok ==> r == Reading(EOOR, None)
    ensures r.status == Ok ==>
      r.value.Some? && r.value.value < Pid.NUM_PIDS && PidArgs(r.value.value) == (input, output)
  {
    if input > 2 || input < 1 then Reading(EOOR, None)
    else if output > 2 || output < 1 then Reading(EOOR, None)
    else if input == 1 && output == 1 then Reading(Ok, Some(Pid.RP_PID_11))
    else if input == 2 && output == 1 then Reading(Ok, Some(Pid.RP_PID_12))
    else if input == 1 && output == 2 then Reading(Ok, Some(Pid.RP_PID_21))
    else Reading(Ok, Some(Pid.RP_PID_22))
  }

  /** Every instance is reachable: its own header numbers parse to it. */
  lemma ParsePidArgvReachesEveryPid(pid: nat)
    requires pid < Pid.NUM_PIDS
    ensures ParsePidArgv(PidArgs(pid).0, PidArgs(pid).1) == Reading(Ok, Some(pid))
  {
    var io := PidArgs(pid);
    var r := ParsePidArgv(io.0, io.1);
    assert r.status == Ok;
    assert PidArgs(r.value.value) == PidArgs(pid);
  }

  /** Two accepted headers name the same instance only if they are the same
      header. */
  lemma ParsePidArgvIsInjective(a: int, b: int, c: int, d: int)
    requires ParsePidArgv(a, b).status == Ok && ParsePidArgv(c, d).status == Ok
    requires ParsePidArgv(a, b).value == ParsePidArgv(c, d).value
    ensures a == c && b == d
  {
    assert (a, b) == PidArgs(ParsePidArgv(a, b).value.value);
  }

  /** The instance a command header names, or RP_EOOR. */
  function HeaderPid(input: Option<int>, output: Option<int>): Reading<nat> {
    ParsePidArgv(CommandNumber(input), CommandNumber(output))
  }

  // ---------------------------------------------------------------------
  // The relock-input choice table

  /** scpi_choice_def_t: a mnemonic and its tag. */
  datatype Choice = Choice(name: string, tag: int)

  /** scpi_RpAinput: the analog inputs AIN0..AIN3 with their rp_apin_t numbers. */
  const AIN_CHOICES: seq<Choice> :=
    [Choice("AIN0", 4), Choice("AIN1", 5), Choice("AIN2", 6), Choice("AIN3", 7)]

  /** SCPI_ParamChoice's lookup: the tag of the first entry with this name. */
  function ChoiceValue(table: seq<Choice>, name: string): (r: Option<int>)
    ensures r.None? <==> forall i :: 0 <= i < |table| ==> table[i].name != name
    ensures r.Some? ==>
      exists i ::
        && 0 <= i < |table| && table[i] == Choice(name, r.value)
        && forall j :: 0 <= j < i ==> table[j].name != name
  {
    if |table| == 0 then None
    else if table[0].name == name then Some(table[0].tag)
    else
      var r := ChoiceValue(table[1..], name);
      assert forall i :: 1 <= i < |table| ==> table[i] == table[1..][i - 1];
      r
  }

  /** SCPI_ChoiceToName: the name of the first entry with this tag. */
  function ChoiceToName(table: seq<Choice>, tag: int): (r: Option<string>)
    ensures r.None? <==> forall i :: 0 <= i < |table| ==> table[i].tag != tag
    ensures r.Some? ==>
      exists i ::
        && 0 <= i < |table| && table[i] == Choice(r.value, tag)
        && forall j :: 0 <= j < i ==> table[j].tag != tag
  {
    if |table| == 0 then None
    else if table[0].tag == tag then Some(table[0].name)
    else
      var r := ChoiceToName(table[1..], tag);
      assert forall i :: 1 <= i < |table| ==> table[i] == table[1..][i - 1];
      r
  }

  /** Exactly the analog inputs AIN0..AIN3 have a name, and a pin's name
      selects that pin again. */
  lemma AinNamesRoundTrip(pin: int)
    ensures ChoiceToName(AIN_CHOICES, pin).Some? <==> Analog.RP_AIN0 <= pin <= Analog.RP_AIN3
    ensures Analog.RP_AIN0 <= pin <= Analog.RP_AIN3 ==>
      ChoiceValue(AIN_CHOICES, ChoiceToName(AIN_CHOICES, pin).value) == Some(pin)
  {
    var t := AIN_CHOICES;
    if pin == 4 {
      assert t[0] == Choice("AIN0", 4);
    } else if pin == 5 {
      assert t[1] == Choice("AIN1", 5);
    } else if pin == 6 {
      assert t[2] == Choice("AIN2", 6);
    } else if pin == 7 {
      assert t[3] == Choice("AIN3", 7);
    } else {
      assert forall i :: 0 <= i < |t| ==> t[i].tag != pin;
    }
  }

  /** Every name the table accepts selects one of AIN0..AIN3, whose name it
      is. */
  lemma AinChoicesRoundTrip(name: string)
    requires ChoiceValue(AIN_CHOICES, name).Some?
    ensures Analog.RP_AIN0 <= ChoiceValue(AIN_CHOICES, name).value <= Analog.RP_AIN3
    ensures ChoiceToName(AIN_CHOICES, ChoiceValue(AIN_CHOICES, name).value) == Some(name)
  {
    var t := AIN_CHOICES;
    var i :| 0 <= i < |t| && t[i] == Choice(name, ChoiceValue(t, name).value);
    assert t[i].tag == 4 + i;
    assert forall k :: 0 <= k < |t| ==> t[k].tag == 4 + k;
    ChoiceNameRoundTrip(t, name);
  }

  /** No two entries of the table share a tag. */
  predicate DistinctTags(table: seq<Choice>) {
    forall a, b :: 0 <= a < b < |table| ==> table[a].tag != table[b].tag
  }

  /** In a table whose tags are distinct, the name of an accepted name's tag
      is that name again. */
  lemma {:induction false} ChoiceNameRoundTrip(table: seq<Choice>, name: string)
    requires DistinctTags(table)
    requires ChoiceValue(table, name).Some?
    ensures ChoiceToName(table, ChoiceValue(table, name).value) == Some(name)
  {
    if table[0].name != name {
      var rest := table[1..];
      var tag := ChoiceValue(rest, name).value;
      assert DistinctTags(rest) by {
        forall a, b | 0 <= a < b < |rest|
          ensures rest[a].tag != rest[b].tag
        {
          assert rest[a] == table[a + 1] && rest[b] == table[b + 1];
        }
      }
      ChoiceNameRoundTrip(rest, name);
      var k :| 0 <= k < |rest| && rest[k] == Choice(name, tag);
      assert table[k + 1].tag == tag;
    }
  }

  // ---------------------------------------------------------------------
  // What the handlers do

  /** A command's result and the register block it leaves. */
  datatype Handled = Handled(result: ScpiResult, regs: seq<bv32>)

  /** A query's result and the mnemonic it replies with, if any. */
  datatype Response = Response(result: ScpiResult, reply: Option<string>)

  /** The mnemonic of a boolean query. */
  function Mnemonic(b: bool): string {
    if b then "ON" else "OFF"
  }

  /** RP_PIDIntReset, RP_PIDInverted, RP_PIDHold, RP_PIDResetWhenRailed and
      RP_PIDRelock: a header or parameter that does not parse is refused
      before the setter is called; once both parse, the setter cannot fail. */
  function FlagCommandEffect(regs: seq<bv32>, flag: Pid.Flag, input: Option<int>, output: Option<int>,
                             param: Option<bool>): (h: Handled)
    requires |regs| == Pid.PID_WORDS
    ensures h.result == ResOk <==> HeaderPid(input, output).status == Ok && param.Some?
    ensures h.result == ResErr ==> h.regs == regs
    ensures h.result == ResOk ==>
      h.regs == Pid.SetFlag(regs, flag, HeaderPid(input, output).value.value, param.value).regs
  {
    var parsed := HeaderPid(input, output);
    if parsed.status != Ok || param.None? then Handled(ResErr, regs)
    else
      var o := Pid.SetFlag(regs, flag, parsed.value.value, param.value);
      Handled(ResultOf(o.status), o.regs)
  }

  /** The matching queries: once the header parses they reply "ON" exactly
      when the flag is set, and "OFF" otherwise. */
  function FlagQueryResponse(regs: seq<bv32>, flag: Pid.Flag, input: Option<int>, output: Option<int>)
    : (r: Response)
    requires |regs| == Pid.PID_WORDS
    ensures r.result == ResOk <==> HeaderPid(input, output).status == Ok
    ensures r.result == ResErr ==> r.reply == None
    ensures r.result == ResOk ==>
      var flagSet := Pid.GetFlag(regs, flag, HeaderPid(input, output).value.value).value;
      && (r.reply == Some("ON") <==> flagSet == Some(true))
      && (r.reply == Some("OFF") <==> flagSet == Some(false))
  {
    var parsed := HeaderPid(input, output);
    if parsed.status != Ok then Response(ResErr, None)
    else
      var got := Pid.GetFlag(regs, flag, parsed.value.value);
      if got.status != Ok then Response(ResErr, None)
      else Response(ResOk, Some(Mnemonic(got.value.value)))
  }

  /** A flag command followed by its query replies with the value sent. */
  lemma FlagCommandThenQuery(regs: seq<bv32>, flag: Pid.Flag, input: Option<int>, output: Option<int>, b: bool)
    requires |regs| == Pid.PID_WORDS && HeaderPid(input, output).status == Ok
    ensures var h := FlagCommandEffect(regs, flag, input, output, Some(b));
      h.result == ResOk && FlagQueryResponse(h.regs, flag, input, output) == Response(ResOk, Some(Mnemonic(b)))
  {
    Pid.FlagSetThenGet(regs, flag, HeaderPid(input, output).value.value, b);
  }

  /** RP_PIDRelockInput: a header that does not parse, or a parameter that
      is not one of the table's names, is refused before the setter is
      called; otherwise the named pin is stored and the command succeeds. */
  function RelockCommandEffect(regs: seq<bv32>, input: Option<int>, output: Option<int>,
                               param: Option<string>): (h: Handled)
    requires |regs| == Pid.PID_WORDS
    ensures h.result == ResOk <==>
      HeaderPid(input, output).status == Ok && param.Some? && ChoiceValue(AIN_CHOICES, param.value).Some?
    ensures h.result == ResErr ==> h.regs == regs
    ensures h.result == ResOk ==>
      var pin := ChoiceValue(AIN_CHOICES, param.value).value;
      && Analog.RP_AIN0 <= pin <= Analog.RP_AIN3
      && h.regs == Pid.SetRelockInput(regs, HeaderPid(input, output).value.value, pin).regs
  {
    var parsed := HeaderPid(input, output);
    if parsed.status != Ok || param.None? then Handled(ResErr, regs)
    else
      var choice := ChoiceValue(AIN_CHOICES, param.value);
      if choice.None? then Handled(ResErr, regs)
      else
        AinChoicesRoundTrip(param.value);
        var o := Pid.SetRelockInput(regs, parsed.value.value, choice.value);
        Pid.RelockInputRoundTrip(regs, parsed.value.value, choice.value);
        Handled(ResultOf(o.status), o.regs)
  }

  /** RP_PIDRelockInputQ: once the header parses it always replies, with the
      table name of the stored pin; the refusal for a pin without a name
      cannot happen, since the stored pin is always one of AIN0..AIN3. */
  function RelockQueryResponse(regs: seq<bv32>, input: Option<int>, output: Option<int>): (r: Response)
    requires |regs| == Pid.PID_WORDS
    ensures r.result == ResOk <==> HeaderPid(input, output).status == Ok
    ensures r.result == ResErr ==> r.reply == None
    ensures r.result == ResOk ==>
      && r.reply.Some?
      && ChoiceValue(AIN_CHOICES, r.reply.value) ==
         Pid.GetRelockInput(regs, HeaderPid(input, output).value.value).value
  {
    var parsed := HeaderPid(input, output);
    if parsed.status != Ok then Response(ResErr, None)
    else
      var got := Pid.GetRelockInput(regs, parsed.value.value);
      if got.status != Ok then Response(ResErr, None)
      else
        var name := ChoiceToName(AIN_CHOICES, got.value.value);
        Pid.GetRelockInputInRange(regs, parsed.value.value);
        AinNamesRoundTrip(got.value.value);
        if name.None? then Response(ResErr, None)
        else Response(ResOk, name)
  }

  /** A relock-input command followed by its query replies with the name
      sent. */
  lemma RelockCommandThenQuery(regs: seq<bv32>, input: Option<int>, output: Option<int>, name: string)
    requires |regs| == Pid.PID_WORDS && HeaderPid(input, output).status == Ok
    requires ChoiceValue(AIN_CHOICES, name).Some?
    ensures var h := RelockCommandEffect(regs, input, output, Some(name));
      h.result == ResOk && RelockQueryResponse(h.regs, input, output) == Response(ResOk, Some(name))
  {
    var pid := HeaderPid(input, output).value.value;
    var pin := ChoiceValue(AIN_CHOICES, name).value;
    AinChoicesRoundTrip(name);
    Pid.RelockInputRoundTrip(regs, pid, pin);
    var h := RelockCommandEffect(regs, input, output, Some(name));
    assert h.regs == Pid.SetRelockInput(regs, pid, pin).regs;
    assert Pid.GetRelockInput(h.regs, pid) == Reading(Ok, Some(pin));
  }

  // ---------------------------------------------------------------------
  // The handlers

  /** The flag command handlers, one `flag` per handler. */
  method FlagCommand(block: Pid.PidRegisters, flag: Pid.Flag, input: Option<int>, output: Option<int>,
                     param: Option<bool>) returns (res: ScpiResult)
    requires block.Valid()
    modifies block.regs
    ensures Handled(res, block.regs[..]) == FlagCommandEffect(old(block.regs[..]), flag, input, output, param)
  {
    var parsed := HeaderPid(input, output);
    if parsed.status != Ok {
      return ResErr;
    }
    if param.None? {
      return ResErr;
    }
    var status := block.SetFlagBit(flag, parsed.value.value, param.value);
    res := ResultOf(status);
  }

  /** The flag query handlers, one `flag` per handler. */
  method FlagQuery(block: Pid.PidRegisters, flag: Pid.Flag, input: Option<int>, output: Option<int>)
    returns (res: ScpiResult, reply: Option<string>)
    requires block.Valid()
    ensures Response(res, reply) == FlagQueryResponse(block.regs[..], flag, input, output)
  {
    var parsed := HeaderPid(input, output);
    if parsed.status != Ok {
      return ResErr, None;
    }
    var status, enabled := block.GetFlagBit(flag, parsed.value.value);
    if status != Ok {
      return ResErr, None;
    }
    res, reply := ResOk, Some(Mnemonic(enabled.value));
  }

  /** RP_PIDRelockInput */
  method RelockInputCommand(block: Pid.PidRegisters, input: Option<int>, output: Option<int>,
                            param: Option<string>) returns (res: ScpiResult)
    requires block.Valid()
    modifies block.regs
    ensures Handled(res, block.regs[..]) == RelockCommandEffect(old(block.regs[..]), input, output, param)
  {
    var parsed := HeaderPid(input, output);
    if parsed.status != Ok {
      return ResErr;
    }
    if param.None? {
      return ResErr;
    }
    var choice := ChoiceValue(AIN_CHOICES, param.value);
    if choice.None? {
      return ResErr;
    }
    AinChoicesRoundTrip(param.value);
    var status := block.SetPIDRelockInput(parsed.value.value, choice.value);
    res := ResultOf(status);
  }

  /** RP_PIDRelockInputQ */
  method RelockInputQuery(block: Pid.PidRegisters, input: Option<int>, output: Option<int>)
    returns (res: ScpiResult, reply: Option<string>)
    requires block.Valid()
    ensures Response(res, reply) == RelockQueryResponse(block.regs[..], input, output)
  {
    var parsed := HeaderPid(input, output);
    if parsed.status != Ok {
      return ResErr, None;
    }
    var status, pin := block.GetPIDRelockInput(parsed.value.value);
    if status != Ok {
      return ResErr, None;
    }
    var name := ChoiceToName(AIN_CHOICES, pin.value);
    if name.None? {
      return ResErr, None;
    }
    res, reply := ResOk, name;
  }

  /** RP_SaveLockboxConfig: SCPI_RES_OK exactly when the API saved the
      configuration, that is when the file could be opened for writing. */
  method SaveConfigCommand(box: Snapshot.Lockbox, version: int, writable: bool) returns (res: ScpiResult)
    requires box.Valid()
    modifies box
    ensures box.Valid()
    ensures box.values == old(box.values) && box.calls == old(box.calls)
    ensures res == ResOk <==> writable
    ensures res == ResOk ==> box.file == Some(Snapshot.SaveRecord(box.values, version))
    ensures res == ResErr ==> box.file == old(box.file)
  {
    var status := box.SaveLockboxConfig(version, writable);
    res := ResultOf(status);
  }

  /** RP_LoadLockboxConfig: SCPI_RES_OK exactly when the API loaded the
      configuration, that is when the file holds a record of this version;
      otherwise no setting has changed. */
  method LoadConfigCommand(box: Snapshot.Lockbox, version: int) returns (res: ScpiResult)
    requires box.Valid()
    modifies box
    ensures box.Valid() && box.file == old(box.file)
    ensures res == ResOk <==> old(box.file).Some? && old(box.file).value.version == version
    ensures res == ResOk ==>
      box.values == old(box.file).value.values &&
      box.calls == old(box.calls) + Snapshot.LoadCalls(old(box.file).value)
    ensures res == ResErr ==> box.values == old(box.values) && box.calls == old(box.calls)
  {
    var status := box.LoadLockboxConfig(version);
    res := ResultOf(status);
  }
}
