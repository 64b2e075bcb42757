/** The analog pins of the lockbox API: four slow DAC outputs and four slow
    ADC inputs in the analog-mixed-signals register block, addressed either
    per bank (rp_AOpin*, rp_AIpin*: index 0..3) or through the flat
    enumeration rp_apin_t (RP_AOUT0..RP_AOUT3 are 0..3, RP_AIN0..RP_AIN3 are
    4..7), which the rp_Apin* functions dispatch to the two banks.

    The registers are the class `AnalogMixedSignals`; the functions over
    sequences of register words state what each operation does to them. */
module Analog {
  import opened Common

  // Constants of analog_mixed_signals.h.
  const ANALOG_OUT_MASK: bv32 := 0xFF
  const ANALOG_OUT_BITS: bv32 := 16
  const ANALOG_IN_MASK: bv32 := 0xFFF
  const ANALOG_IN_MAX_VAL: real := 7.0
  const ANALOG_IN_MIN_VAL: real := 0.0
  const ANALOG_IN_MAX_VAL_INTEGER: bv32 := 0xFFF
  const ANALOG_OUT_MAX_VAL: real := 1.8
  const ANALOG_OUT_MIN_VAL: real := 0.0
  const ANALOG_OUT_MAX_VAL_INTEGER: bv32 := 156

  /** Size in bytes of the mapped register block. */
  const ANALOG_MIXED_SIGNALS_BASE_SIZE: nat := 0x60

  /** Words of analog_mixed_signals_control_t, field by field:
      aif[4], reserved[4], dac[4], reserved2[7], fadc[2], fdac[2]. */
  const AMS_FIELD_WORDS: seq<nat> := [4, 4, 4, 7, 2, 2]

  /** Length of each of the aif and dac banks. */
  const BANK_SIZE: nat := 4

  // rp_apin_t: the outputs come first, then the inputs.
  const RP_AOUT0: nat := 0
  const RP_AOUT3: nat := 3
  const RP_AIN0: nat := 4
  const RP_AIN3: nat := 7

  function Sum(s: seq<nat>): nat {
    if s == [] then 0 else s[0] + Sum(s[1..])
  }

  /** The register word rp_AOpinSetValueRaw writes for a raw output code:
      the code masked to ANALOG_OUT_MASK and shifted up by ANALOG_OUT_BITS. */
  function PackOut(code: bv32): bv32 {
    (code & ANALOG_OUT_MASK) << ANALOG_OUT_BITS
  }

  /** The raw output code rp_AOpinGetValueRaw reads back from a DAC word. */
  function UnpackOut(word: bv32): (code: bv32)
    ensures code <= ANALOG_OUT_MASK
  {
    (word >> ANALOG_OUT_BITS) & ANALOG_OUT_MASK
  }

  /** The raw input code rp_AIpinGetValueRaw reads from an ADC word. */
  function UnpackIn(word: bv32): (code: bv32)
    ensures code <= ANALOG_IN_MAX_VAL_INTEGER
  {
    word & ANALOG_IN_MASK
  }

  /** Every code the output bank accepts is stored and read back unchanged,
      and its word occupies only bits 16..23 of the DAC register. */
  lemma PackOutRoundTrip(code: bv32)
    requires code <= ANALOG_OUT_MAX_VAL_INTEGER
    ensures UnpackOut(PackOut(code)) == code
    ensures PackOut(code) & !0x00FF_0000 == 0
  {
  }

  /** The header's constants agree with each other: an accepted output code
      passes ANALOG_OUT_MASK unchanged, the shifted mask stays inside 32
      bits, every masked input code is within ANALOG_IN_MAX_VAL_INTEGER,
      both voltage ranges are non-empty (so the scaling never divides by
      zero), and the register struct fits the mapped block. */
  lemma ConstantsAgree()
    ensures ANALOG_OUT_MAX_VAL_INTEGER <= ANALOG_OUT_MASK
    ensures (ANALOG_OUT_MASK << ANALOG_OUT_BITS) >> ANALOG_OUT_BITS == ANALOG_OUT_MASK
    ensures ANALOG_IN_MASK == ANALOG_IN_MAX_VAL_INTEGER
    ensures ANALOG_IN_MIN_VAL < ANALOG_IN_MAX_VAL && ANALOG_OUT_MIN_VAL < ANALOG_OUT_MAX_VAL
    ensures 4 * Sum(AMS_FIELD_WORDS) <= ANALOG_MIXED_SIGNALS_BASE_SIZE
  {
    assert Sum(AMS_FIELD_WORDS) == 23;
  }

  /** What an operation on the output bank returns together with the DAC
      words it leaves. */
  datatype OutBank = OutBank(status: Status, dac: seq<bv32>)

  /** rp_AOpinSetValueRaw: RP_EPN for an index past the bank, RP_EOOR for a
      code above ANALOG_OUT_MAX_VAL_INTEGER, otherwise the packed code is
      written to dac[pin]. */
  function SetOutputRaw(dac: seq<bv32>, pin: nat, code: bv32): OutBank
    requires |dac| == BANK_SIZE
  {
    if pin >= BANK_SIZE then OutBank(EPN, dac)
    else if code > ANALOG_OUT_MAX_VAL_INTEGER then OutBank(EOOR, dac)
    else OutBank(Ok, dac[pin := PackOut(code)])
  }

  /** rp_AOpinGetValueRaw. */
  function OutputRaw(dac: seq<bv32>, pin: nat): Reading<bv32>
    requires |dac| == BANK_SIZE
  {
    if pin >= BANK_SIZE then Reading(EPN, None) else Reading(Ok, Some(UnpackOut(dac[pin])))
  }

  /** rp_AIpinGetValueRaw. */
  function InputRaw(aif: seq<bv32>, pin: nat): Reading<bv32>
    requires |aif| == BANK_SIZE
  {
    if pin >= BANK_SIZE then Reading(EPN, None) else Reading(Ok, Some(UnpackIn(aif[pin])))
  }

  /** The DAC words after rp_AOpinReset. */
  function ZeroOutputs(): (dac: seq<bv32>)
    ensures |dac| == BANK_SIZE
  {
    [0, 0, 0, 0]
  }

  /** A raw output write succeeds exactly for an index in the bank and a code
      up to ANALOG_OUT_MAX_VAL_INTEGER; on failure no DAC word changes, and on
      success only the addressed word changes. */
  lemma SetOutputRawOutcome(dac: seq<bv32>, pin: nat, code: bv32)
    requires |dac| == BANK_SIZE
    ensures var o := SetOutputRaw(dac, pin, code);
      && (o.status == Ok <==> pin < BANK_SIZE && code <= ANALOG_OUT_MAX_VAL_INTEGER)
      && (pin >= BANK_SIZE ==> o == OutBank(EPN, dac))
      && (pin < BANK_SIZE && code > ANALOG_OUT_MAX_VAL_INTEGER ==> o == OutBank(EOOR, dac))
      && |o.dac| == BANK_SIZE
      && (forall j :: 0 <= j < BANK_SIZE && j != pin ==> o.dac[j] == dac[j])
  {
  }

  /** Reading a DAC back after a successful raw write returns the code
      written; the other three outputs read as before. */
  lemma OutputRawRoundTrip(dac: seq<bv32>, pin: nat, code: bv32, other: nat)
    requires |dac| == BANK_SIZE
    requires pin < BANK_SIZE && code <= ANALOG_OUT_MAX_VAL_INTEGER
    requires other != pin
    ensures OutputRaw(SetOutputRaw(dac, pin, code).dac, pin) == Reading(Ok, Some(code))
    ensures OutputRaw(SetOutputRaw(dac, pin, code).dac, other) == OutputRaw(dac, other)
  {
    PackOutRoundTrip(code);
  }

  /** After rp_AOpinReset every output reads raw code 0, which is what a
      raw write of 0 leaves. */
  lemma ResetOutputsReadZero(pin: nat)
    requires pin < BANK_SIZE
    ensures OutputRaw(ZeroOutputs(), pin) == Reading(Ok, Some(0))
    ensures ZeroOutputs()[pin] == PackOut(0)
  {
  }

  /** rp_ApinGetValueRaw: 0..3 go to the output bank, 4..7 to the input bank,
      anything higher is RP_EPN. The bank's own status is dropped and RP_OK
      returned; only the value it stored is kept. */
  function ApinReadRaw(aif: seq<bv32>, dac: seq<bv32>, pin: nat): Reading<bv32>
    requires |aif| == BANK_SIZE && |dac| == BANK_SIZE
  {
    if pin <= RP_AOUT3 then Reading(Ok, OutputRaw(dac, pin - RP_AOUT0).value)
    else if pin <= RP_AIN3 then Reading(Ok, InputRaw(aif, pin - RP_AIN0).value)
    else Reading(EPN, None)
  }

  /** The flat read agrees with the bank reads: output pin i is bank index
      i, input pin 4 + i is bank index i, and nothing past RP_AIN3 is read. */
  lemma ApinReadRawDispatch(aif: seq<bv32>, dac: seq<bv32>, pin: nat)
    requires |aif| == BANK_SIZE && |dac| == BANK_SIZE
    ensures pin <= RP_AOUT3 ==> ApinReadRaw(aif, dac, pin) == OutputRaw(dac, pin)
    ensures RP_AIN0 <= pin <= RP_AIN3 ==> ApinReadRaw(aif, dac, pin) == InputRaw(aif, pin - RP_AIN0)
    ensures pin > RP_AIN3 ==> ApinReadRaw(aif, dac, pin) == Reading(EPN, None)
  {
  }

  /** rp_ApinSetValueRaw as written: an output pin is passed to
      rp_AOpinSetValueRaw, whose status is dropped, and RP_OK is returned;
      inputs and unknown pins are RP_EPN. */
  function ApinWriteRaw(dac: seq<bv32>, pin: nat, code: bv32): OutBank
    requires |dac| == BANK_SIZE
  {
    if pin <= RP_AOUT3 then OutBank(Ok, SetOutputRaw(dac, pin - RP_AOUT0, code).dac)
    else OutBank(EPN, dac)
  }

  /** rp_ApinSetValueRaw with the output bank's status passed on. */
  function ApinWriteRawChecked(dac: seq<bv32>, pin: nat, code: bv32): OutBank
    requires |dac| == BANK_SIZE
  {
    if pin <= RP_AOUT3 then SetOutputRaw(dac, pin - RP_AOUT0, code)
    else OutBank(EPN, dac)
  }

  /** As written, rp_ApinSetValueRaw(RP_AOUT0, 157) reports RP_OK although
      the output bank refused the code and no register changed. */
  lemma ApinWriteRawHidesRefusal(dac: seq<bv32>)
    requires |dac| == BANK_SIZE
    ensures SetOutputRaw(dac, RP_AOUT0, 157).status == EOOR
    ensures ApinWriteRaw(dac, RP_AOUT0, 157) == OutBank(Ok, dac)
  {
  }

  /** With the status passed on, RP_OK means the code was stored: a flat
      write succeeds exactly when it is an output pin and an accepted code,
      and reading the pin back then returns that code. A write to an input
      pin or an unknown pin is refused and changes nothing. */
  lemma ApinWriteRawCheckedReportsWrite(aif: seq<bv32>, dac: seq<bv32>, pin: nat, code: bv32)
    requires |aif| == BANK_SIZE && |dac| == BANK_SIZE
    ensures var o := ApinWriteRawChecked(dac, pin, code);
      && (o.status == Ok <==> pin <= RP_AOUT3 && code <= ANALOG_OUT_MAX_VAL_INTEGER)
      && (o.status != Ok ==> o.dac == dac)
      && (o.status == Ok ==> ApinReadRaw(aif, o.dac, pin) == Reading(Ok, Some(code)))
  {
    if pin <= RP_AOUT3 && code <= ANALOG_OUT_MAX_VAL_INTEGER {
      PackOutRoundTrip(code);
    }
  }

  /** rp_AOpinGetRange: the output range, for any index. */
  function AOpinGetRange(pin: nat): (r: (real, real))
    ensures r.0 < r.1
  {
    (ANALOG_OUT_MIN_VAL, ANALOG_OUT_MAX_VAL)
  }

  /** rp_ApinGetRange: the output range for 0..3, the input range for 4..7,
      RP_EPN above; no register is read. */
  function ApinGetRange(pin: nat): (r: Reading<(real, real)>)
    ensures r.status == Ok <==> pin <= RP_AIN3
    ensures r.status == Ok ==> r.value.Some? && r.value.value.0 < r.value.value.1
    ensures pin <= RP_AOUT3 ==> r == Reading(Ok, Some(AOpinGetRange(pin)))
    ensures RP_AIN0 <= pin <= RP_AIN3 ==> r == Reading(Ok, Some((0.0, 7.0)))
  {
    if pin <= RP_AOUT3 then Reading(Ok, Some((ANALOG_OUT_MIN_VAL, ANALOG_OUT_MAX_VAL)))
    else if pin <= RP_AIN3 then Reading(Ok, Some((ANALOG_IN_MIN_VAL, ANALOG_IN_MAX_VAL)))
    else Reading(EPN, None)
  }

  /** Applies a scaling to the value of a reading, keeping its status. */
  function Scale(r: Reading<bv32>, toVolts: bv32 -> real): (v: Reading<real>)
    ensures v.status == r.status && v.value.Some? == r.value.Some?
  {
    match r.value
    case None => Reading(r.status, None)
    case Some(code) => Reading(r.status, Some(toVolts(code)))
  }

  /** The analog-mixed-signals register block: the ADC words aif[4] and the
      DAC words dac[4]. The reserved and fast-channel words are not used by
      the modelled operations. */
  class AnalogMixedSignals {
    const aif: array<bv32>
    const dac: array<bv32>

    predicate Valid()
    {
      aif.Length == BANK_SIZE && dac.Length == BANK_SIZE && aif != dac
    }

    constructor (inputs: seq<bv32>)
      requires |inputs| == BANK_SIZE
      ensures Valid() && fresh(aif) && fresh(dac)
      ensures aif[..] == inputs && dac[..] == ZeroOutputs()
    {
      aif := new bv32[4](i requires 0 <= i < 4 => inputs[i]);
      dac := new bv32[4](_ => 0);
      new;
      assert dac[..] == [0, 0, 0, 0];
    }

    /** rp_AIpinGetValueRaw */
    method AIpinGetValueRaw(pin: nat) returns (status: Status, value: Option<bv32>)
      requires Valid()
      ensures Reading(status, value) == InputRaw(aif[..], pin)
    {
      if pin >= 4 {
        return EPN, None;
      }
      value := Some(aif[pin] & ANALOG_IN_MASK);
      status := Ok;
    }

    /** rp_AIpinGetValue, with the code-to-volts scaling as a parameter. */
    method AIpinGetValue(pin: nat, toVolts: bv32 -> real) returns (status: Status, value: Option<real>)
      requires Valid()
      ensures Reading(status, value) == Scale(InputRaw(aif[..], pin), toVolts)
    {
      var raw;
      status, raw := AIpinGetValueRaw(pin);
      value := if raw.Some? then Some(toVolts(raw.value)) else None;
    }

    /** rp_AOpinSetValueRaw */
    method AOpinSetValueRaw(pin: nat, value: bv32) returns (status: Status)
      requires Valid()
      modifies dac
      ensures OutBank(status, dac[..]) == SetOutputRaw(old(dac[..]), pin, value)
    {
      if pin >= 4 {
        return EPN;
      }
      if value > ANALOG_OUT_MAX_VAL_INTEGER {
        return EOOR;
      }
      dac[pin] := (value & ANALOG_OUT_MASK) << ANALOG_OUT_BITS;
      status := Ok;
    }

    /** rp_AOpinSetValue, with the volts-to-code conversion as a parameter. */
    method AOpinSetValue(pin: nat, value: real, toCode: real -> bv32) returns (status: Status)
      requires Valid()
      modifies dac
      ensures OutBank(status, dac[..]) == SetOutputRaw(old(dac[..]), pin, toCode(value))
    {
      status := AOpinSetValueRaw(pin, toCode(value));
    }

    /** rp_AOpinGetValueRaw */
    method AOpinGetValueRaw(pin: nat) returns (status: Status, value: Option<bv32>)
      requires Valid()
      ensures Reading(status, value) == OutputRaw(dac[..], pin)
    {
      if pin >= 4 {
        return EPN, None;
      }
      value := Some((dac[pin] >> ANALOG_OUT_BITS) & ANALOG_OUT_MASK);
      status := Ok;
    }

    /** rp_AOpinGetValue, with the code-to-volts scaling as a parameter. */
    method AOpinGetValue(pin: nat, toVolts: bv32 -> real) returns (status: Status, value: Option<real>)
      requires Valid()
      ensures Reading(status, value) == Scale(OutputRaw(dac[..], pin), toVolts)
    {
      var raw;
      status, raw := AOpinGetValueRaw(pin);
      value := if raw.Some? then Some(toVolts(raw.value)) else None;
    }

    /** rp_AOpinReset: a raw 0 written to each of the four outputs in turn. */
    method AOpinReset() returns (status: Status)
      requires Valid()
      modifies dac
      ensures status == Ok
      ensures dac[..] == ZeroOutputs()
    {
      var pin := 0;
      while pin < 4
        invariant 0 <= pin <= 4
        invariant forall j :: 0 <= j < pin ==> dac[j] == 0
      {
        var _ := AOpinSetValueRaw(pin, 0);
        pin := pin + 1;
      }
      assert dac[..] == [dac[0], dac[1], dac[2], dac[3]];
      status := Ok;
    }

    /** rp_ApinReset */
    method ApinReset() returns (status: Status)
      requires Valid()
      modifies dac
      ensures status == Ok
      ensures dac[..] == ZeroOutputs()
    {
      status := AOpinReset();
    }

    /** rp_ApinGetValueRaw */
    method ApinGetValueRaw(pin: nat) returns (status: Status, value: Option<bv32>)
      requires Valid()
      ensures Reading(status, value) == ApinReadRaw(aif[..], dac[..], pin)
    {
      if pin <= RP_AOUT3 {
        var inner;
        inner, value := AOpinGetValueRaw(pin - RP_AOUT0);
      } else if pin <= RP_AIN3 {
        var inner;
        inner, value := AIpinGetValueRaw(pin - RP_AIN0);
      } else {
        return EPN, None;
      }
      status := Ok;
    }

    /** rp_ApinGetValue, with the scaling of each bank as a parameter. */
    method ApinGetValue(pin: nat, outToVolts: bv32 -> real, inToVolts: bv32 -> real)
      returns (status: Status, value: Option<real>)
      requires Valid()
      ensures pin <= RP_AOUT3 ==>
        Reading(status, value) == Reading(Ok, Scale(OutputRaw(dac[..], pin), outToVolts).value)
      ensures RP_AIN0 <= pin <= RP_AIN3 ==>
        Reading(status, value) == Reading(Ok, Scale(InputRaw(aif[..], pin - RP_AIN0), inToVolts).value)
      ensures pin > RP_AIN3 ==> Reading(status, value) == Reading(EPN, None)
    {
      if pin <= RP_AOUT3 {
        var inner;
        inner, value := AOpinGetValue(pin - RP_AOUT0, outToVolts);
      } else if pin <= RP_AIN3 {
        var inner;
        inner, value := AIpinGetValue(pin - RP_AIN0, inToVolts);
      } else {
        return EPN, None;
      }
      status := Ok;
    }

    /** rp_ApinSetValueRaw, as written: the output bank's status is dropped. */
    method ApinSetValueRaw(pin: nat, value: bv32) returns (status: Status)
      requires Valid()
      modifies dac
      ensures OutBank(status, dac[..]) == ApinWriteRaw(old(dac[..]), pin, value)
    {
      if pin <= RP_AOUT3 {
        var _ := AOpinSetValueRaw(pin - RP_AOUT0, value);
      } else if pin <= RP_AIN3 {
        return EPN;
      } else {
        return EPN;
      }
      status := Ok;
    }

    /** rp_ApinSetValueRaw with the output bank's status passed on. */
    method ApinSetValueRawChecked(pin: nat, value: bv32) returns (status: Status)
      requires Valid()
      modifies dac
      ensures OutBank(status, dac[..]) == ApinWriteRawChecked(old(dac[..]), pin, value)
    {
      if pin <= RP_AOUT3 {
        status := AOpinSetValueRaw(pin - RP_AOUT0, value);
      } else {
        status := EPN;
      }
    }

    /** rp_ApinSetValue, as written: the output bank's status is dropped. */
    method ApinSetValue(pin: nat, value: real, toCode: real -> bv32) returns (status: Status)
      requires Valid()
      modifies dac
      ensures OutBank(status, dac[..]) == ApinWriteRaw(old(dac[..]), pin, toCode(value))
    {
      if pin <= RP_AOUT3 {
        var _ := AOpinSetValue(pin - RP_AOUT0, value, toCode);
      } else if pin <= RP_AIN3 {
        return EPN;
      } else {
        return EPN;
      }
      status := Ok;
    }
  }
}
