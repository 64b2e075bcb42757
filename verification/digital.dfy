/** The digital pin controller of the lockbox API: eight LEDs and two banks
    (P and N) of eight bidirectional lines, driven through the housekeeping
    registers `ex_cd_p/n` (direction), `ex_co_p/n` (output state),
    `ex_ci_p/n` (input capture), `led_control` and `digital_loop`.

    The register file is the class `Housekeeping`; `HkRegs` is the value of
    its registers at one moment, and the functions over `HkRegs` state what
    each operation does to it. The lemmas below are about those functions. */
module Digital {
  import opened Common

  /** First P-bank pin (RP_DIO0_P) and first N-bank pin (RP_DIO0_N) of the
      flat numbering rp_dpin_t: RP_LED0..RP_LED7 are 0..7, RP_DIO0_P..RP_DIO7_P
      are 8..15, RP_DIO0_N..RP_DIO7_N are 16..23. */
  const RP_DIO0_P: bv32 := 8
  const RP_DIO0_N: bv32 := 16
  const PINS_PER_GROUP: bv32 := 8

  /** A value of the enumeration rp_dpin_t. The C code itself does not
      bound-check the N bank; the model takes the enumeration's range as the type. */
  type Dpin = p: bv32 | p < 24

  /** rp_pinDirection_t: RP_IN is 0 and RP_OUT is 1. */
  datatype Direction = In | Out

  /** rp_pinState_t: RP_LOW is 0 and RP_HIGH is 1. */
  datatype PinState = Low | High

  function DirectionCode(d: Direction): bv32 {
    if d == Out then 1 else 0
  }

  function StateCode(s: PinState): bv32 {
    if s == High then 1 else 0
  }

  /** The three groups a flat pin number falls into. */
  datatype Group = Led | BankP | BankN

  function GroupOf(pin: Dpin): Group {
    if pin < RP_DIO0_P then Led
    else if pin < RP_DIO0_N then BankP
    else BankN
  }

  function GroupBase(g: Group): bv32 {
    match g
    case Led => 0
    case BankP => RP_DIO0_P
    case BankN => RP_DIO0_N
  }

  /** The bit a pin occupies in its group's registers: `pin - RP_DIO0_P` or
      `pin - RP_DIO0_N` for the banks, the pin itself for an LED. */
  function Offset(pin: Dpin): (k: bv32)
    ensures k < PINS_PER_GROUP
  {
    pin - GroupBase(GroupOf(pin))
  }

  /** The pin at bit k of group g; the inverse of (GroupOf, Offset). */
  function PinAt(g: Group, k: bv32): (pin: Dpin)
    requires k < PINS_PER_GROUP
    ensures GroupOf(pin) == g && Offset(pin) == k
  {
    GroupBase(g) + k
  }

  /** Every pin is named by exactly one (group, bit) pair: different pins
      never share a bit of the same group. */
  lemma AddressingIsInjective(p: Dpin, q: Dpin)
    requires GroupOf(p) == GroupOf(q) && Offset(p) == Offset(q)
    ensures p == q
  {
  }

  /** The housekeeping registers the controller uses, at one moment. */
  datatype HkRegs = HkRegs(
    exCdP: bv32, exCdN: bv32,        // direction, bit set = output
    exCoP: bv32, exCoN: bv32,        // output state
    exCiP: bv32, exCiN: bv32,        // input capture, driven by the hardware
    ledControl: bv32,
    digitalLoop: bv32)

  /** What an operation returns together with the registers it leaves. */
  datatype Outcome = Outcome(status: Status, regs: HkRegs)

  /** The direction rp_DpinGetDirection reports: LEDs are always outputs,
      a bank pin reads its bit of ex_cd_p or ex_cd_n. */
  function DirectionOf(r: HkRegs, pin: Dpin): Direction {
    match GroupOf(pin)
    case Led => Out
    case BankP => if Bit(r.exCdP, Offset(pin)) then Out else In
    case BankN => if Bit(r.exCdN, Offset(pin)) then Out else In
  }

  /** The state rp_DpinGetState reports: an LED reads led_control, a bank
      pin reads the input-capture register ex_ci_p or ex_ci_n. */
  function StateOf(r: HkRegs, pin: Dpin): PinState {
    match GroupOf(pin)
    case Led => if Bit(r.ledControl, Offset(pin)) then High else Low
    case BankP => if Bit(r.exCiP, Offset(pin)) then High else Low
    case BankN => if Bit(r.exCiN, Offset(pin)) then High else Low
  }

  /** The bit of the output register that drives a pin: led_control,
      ex_co_p or ex_co_n. */
  function DrivenStateOf(r: HkRegs, pin: Dpin): PinState {
    match GroupOf(pin)
    case Led => if Bit(r.ledControl, Offset(pin)) then High else Low
    case BankP => if Bit(r.exCoP, Offset(pin)) then High else Low
    case BankN => if Bit(r.exCoN, Offset(pin)) then High else Low
  }

  /** rp_DpinReset: zero both direction registers, both output registers,
      led_control and digital_loop. The input-capture registers belong to
      the hardware and are not written. */
  function Reset(r: HkRegs): HkRegs {
    r.(exCdP := 0, exCdN := 0, exCoP := 0, exCoN := 0, ledControl := 0, digitalLoop := 0)
  }

  /** rp_DpinSetDirection: an LED accepts only RP_OUT and writes nothing;
      a bank pin has its direction bit rewritten. */
  function SetDirection(r: HkRegs, pin: Dpin, d: Direction): Outcome {
    match GroupOf(pin)
    case Led => if d == Out then Outcome(Ok, r) else Outcome(ELID, r)
    case BankP => Outcome(Ok, r.(exCdP := WriteBit(r.exCdP, Offset(pin), DirectionCode(d))))
    case BankN => Outcome(Ok, r.(exCdN := WriteBit(r.exCdN, Offset(pin), DirectionCode(d))))
  }

  /** rp_DpinSetState: refused with RP_EWIP when the pin reads as an input;
      otherwise the pin's bit of its output register is rewritten. */
  function SetState(r: HkRegs, pin: Dpin, s: PinState): Outcome {
    if DirectionOf(r, pin) == In then Outcome(EWIP, r)
    else match GroupOf(pin)
      case Led => Outcome(Ok, r.(ledControl := WriteBit(r.ledControl, Offset(pin), StateCode(s))))
      case BankP => Outcome(Ok, r.(exCoP := WriteBit(r.exCoP, Offset(pin), StateCode(s))))
      case BankN => Outcome(Ok, r.(exCoN := WriteBit(r.exCoN, Offset(pin), StateCode(s))))
  }

  /** The registers outside the direction pair are left as they were. */
  predicate SameExceptDirections(a: HkRegs, b: HkRegs) {
    a.exCoP == b.exCoP && a.exCoN == b.exCoN && a.exCiP == b.exCiP && a.exCiN == b.exCiN
    && a.ledControl == b.ledControl && a.digitalLoop == b.digitalLoop
  }

  /** The registers outside the three output-state registers are left as they were. */
  predicate SameExceptOutputs(a: HkRegs, b: HkRegs) {
    a.exCdP == b.exCdP && a.exCdN == b.exCdN && a.exCiP == b.exCiP && a.exCiN == b.exCiN
    && a.digitalLoop == b.digitalLoop
  }

  /** An LED always reports RP_OUT; asking for RP_OUT succeeds and asking for
      RP_IN fails with RP_ELID, and neither writes a register. */
  lemma LedDirectionIsFixed(r: HkRegs, pin: Dpin, d: Direction)
    requires GroupOf(pin) == Led
    ensures DirectionOf(r, pin) == Out
    ensures SetDirection(r, pin, d).regs == r
    ensures SetDirection(r, pin, d).status == (if d == Out then Ok else ELID)
  {
  }

  /** On a bank pin, SetDirection succeeds, GetDirection then reports the
      direction written, and only the bank's direction register changes. */
  lemma BankSetDirectionThenGet(r: HkRegs, pin: Dpin, d: Direction)
    requires GroupOf(pin) != Led
    ensures SetDirection(r, pin, d).status == Ok
    ensures DirectionOf(SetDirection(r, pin, d).regs, pin) == d
    ensures SameExceptDirections(SetDirection(r, pin, d).regs, r)
  {
    if GroupOf(pin) == BankP {
      WriteBitSame(r.exCdP, Offset(pin), DirectionCode(d));
    } else {
      WriteBitSame(r.exCdN, Offset(pin), DirectionCode(d));
    }
  }

  /** Setting the direction of one pin leaves the direction of every other
      pin as it was. */
  lemma SetDirectionKeepsOtherPins(r: HkRegs, pin: Dpin, d: Direction, q: Dpin)
    requires q != pin
    ensures DirectionOf(SetDirection(r, pin, d).regs, q) == DirectionOf(r, q)
  {
    if GroupOf(q) == GroupOf(pin) {
      if Offset(q) == Offset(pin) {
        AddressingIsInjective(pin, q);
      }
      match GroupOf(pin)
      case Led =>
      case BankP => WriteBitOther(r.exCdP, Offset(pin), DirectionCode(d), Offset(q));
      case BankN => WriteBitOther(r.exCdN, Offset(pin), DirectionCode(d), Offset(q));
    }
  }

  /** The direction register of a bank changes in exactly one bit: the pin's. */
  lemma BankSetDirectionTouchesOneBit(r: HkRegs, pin: Dpin, d: Direction)
    requires GroupOf(pin) != Led
    ensures var r' := SetDirection(r, pin, d).regs;
      && SameOutside(r'.exCdP, r.exCdP, SingleBit(Offset(pin)))
      && SameOutside(r'.exCdN, r.exCdN, SingleBit(Offset(pin)))
  {
    if GroupOf(pin) == BankP {
      WriteBitRest(r.exCdP, Offset(pin), DirectionCode(d));
    } else {
      WriteBitRest(r.exCdN, Offset(pin), DirectionCode(d));
    }
  }

  /** Writing the state of a pin that reads as an input fails with RP_EWIP
      and leaves every register unchanged. */
  lemma SetStateOnInputIsRefused(r: HkRegs, pin: Dpin, s: PinState)
    requires DirectionOf(r, pin) == In
    ensures SetState(r, pin, s) == Outcome(EWIP, r)
  {
  }

  /** Writing the state of an output pin succeeds; its output-register bit
      becomes the state written, and no direction or input register changes. */
  lemma SetStateOnOutput(r: HkRegs, pin: Dpin, s: PinState)
    requires DirectionOf(r, pin) == Out
    ensures SetState(r, pin, s).status == Ok
    ensures DrivenStateOf(SetState(r, pin, s).regs, pin) == s
    ensures SameExceptOutputs(SetState(r, pin, s).regs, r)
  {
    match GroupOf(pin)
    case Led => WriteBitSame(r.ledControl, Offset(pin), StateCode(s));
    case BankP => WriteBitSame(r.exCoP, Offset(pin), StateCode(s));
    case BankN => WriteBitSame(r.exCoN, Offset(pin), StateCode(s));
  }

  /** Writing the state of one pin leaves the output bit of every other pin
      as it was. */
  lemma SetStateKeepsOtherPins(r: HkRegs, pin: Dpin, s: PinState, q: Dpin)
    requires q != pin
    ensures DrivenStateOf(SetState(r, pin, s).regs, q) == DrivenStateOf(r, q)
  {
    if DirectionOf(r, pin) == Out && GroupOf(q) == GroupOf(pin) {
      if Offset(q) == Offset(pin) {
        AddressingIsInjective(pin, q);
      }
      match GroupOf(pin)
      case Led => WriteBitOther(r.ledControl, Offset(pin), StateCode(s), Offset(q));
      case BankP => WriteBitOther(r.exCoP, Offset(pin), StateCode(s), Offset(q));
      case BankN => WriteBitOther(r.exCoN, Offset(pin), StateCode(s), Offset(q));
    }
  }

  /** For an LED, GetState after a successful SetState returns the state written. */
  lemma LedStateRoundTrip(r: HkRegs, pin: Dpin, s: PinState)
    requires GroupOf(pin) == Led
    ensures SetState(r, pin, s).status == Ok
    ensures StateOf(SetState(r, pin, s).regs, pin) == s
  {
    WriteBitSame(r.ledControl, Offset(pin), StateCode(s));
  }

  /** For a bank pin, GetState reads the input-capture register, which
      SetState never writes: the state GetState reports is the same before
      and after any SetState on any pin. */
  lemma BankStateIgnoresSetState(r: HkRegs, pin: Dpin, s: PinState, q: Dpin)
    requires GroupOf(q) != Led
    ensures StateOf(SetState(r, pin, s).regs, q) == StateOf(r, q)
  {
  }

  /** Reset is idempotent, leaves every bank pin an input with a zero
      output bit, every LED off, the loopback off, and the capture
      registers untouched. */
  lemma ResetState(r: HkRegs, pin: Dpin)
    ensures Reset(Reset(r)) == Reset(r)
    ensures GroupOf(pin) != Led ==> DirectionOf(Reset(r), pin) == In
    ensures DrivenStateOf(Reset(r), pin) == Low
    ensures GroupOf(pin) == Led ==> StateOf(Reset(r), pin) == Low
    ensures Reset(r).digitalLoop == 0
    ensures Reset(r).exCiP == r.exCiP && Reset(r).exCiN == r.exCiN
  {
  }

  /** The housekeeping register file as the controller sees it. */
  class Housekeeping {
    var exCdP: bv32
    var exCdN: bv32
    var exCoP: bv32
    var exCoN: bv32
    var exCiP: bv32
    var exCiN: bv32
    var ledControl: bv32
    var digitalLoop: bv32

    function Regs(): HkRegs
      reads this
    {
      HkRegs(exCdP, exCdN, exCoP, exCoN, exCiP, exCiN, ledControl, digitalLoop)
    }

    /** rp_DpinReset */
    method DpinReset() returns (status: Status)
      modifies this
      ensures status == Ok
      ensures Regs() == Reset(old(Regs()))
    {
      exCdP := 0;
      exCdN := 0;
      exCoP := 0;
      exCoN := 0;
      ledControl := 0;
      digitalLoop := 0;
      status := Ok;
    }

    /** rp_DpinSetDirection */
    method DpinSetDirection(pin: Dpin, direction: Direction) returns (status: Status)
      modifies this
      ensures Outcome(status, Regs()) == SetDirection(old(Regs()), pin, direction)
    {
      if pin < RP_DIO0_P {
        if direction == Out {
          return Ok;
        } else {
          return ELID;
        }
      } else if pin < RP_DIO0_N {
        var k := pin - RP_DIO0_P;
        assert GroupOf(pin) == BankP && k == Offset(pin);
        var tmp := exCdP;
        exCdP := WriteBit(tmp, k, DirectionCode(direction));
      } else {
        var k := pin - RP_DIO0_N;
        assert GroupOf(pin) == BankN && k == Offset(pin);
        var tmp := exCdN;
        exCdN := WriteBit(tmp, k, DirectionCode(direction));
      }
      status := Ok;
    }

    /** rp_DpinGetDirection */
    method DpinGetDirection(pin: Dpin) returns (status: Status, direction: Direction)
      ensures status == Ok
      ensures direction == DirectionOf(Regs(), pin)
    {
      if pin < RP_DIO0_P {
        direction := Out;
      } else if pin < RP_DIO0_N {
        var k := pin - RP_DIO0_P;
        direction := if Bit(exCdP, k) then Out else In;
      } else {
        var k := pin - RP_DIO0_N;
        direction := if Bit(exCdN, k) then Out else In;
      }
      status := Ok;
    }

    /** rp_DpinSetState */
    method DpinSetState(pin: Dpin, state: PinState) returns (status: Status)
      modifies this
      ensures Outcome(status, Regs()) == SetState(old(Regs()), pin, state)
    {
      var _, direction := DpinGetDirection(pin);
      if direction == In {
        return EWIP;
      }
      if pin < RP_DIO0_P {
        var k := pin;
        assert GroupOf(pin) == Led && k == Offset(pin);
        var tmp := ledControl;
        ledControl := WriteBit(tmp, k, StateCode(state));
      } else if pin < RP_DIO0_N {
        var k := pin - RP_DIO0_P;
        assert GroupOf(pin) == BankP && k == Offset(pin);
        var tmp := exCoP;
        exCoP := WriteBit(tmp, k, StateCode(state));
      } else {
        var k := pin - RP_DIO0_N;
        assert GroupOf(pin) == BankN && k == Offset(pin);
        var tmp := exCoN;
        exCoN := WriteBit(tmp, k, StateCode(state));
      }
      status := Ok;
    }

    /** rp_DpinGetState */
    method DpinGetState(pin: Dpin) returns (status: Status, state: PinState)
      ensures status == Ok
      ensures state == StateOf(Regs(), pin)
    {
      if pin < RP_DIO0_P {
        state := if Bit(ledControl, pin) then High else Low;
      } else if pin < RP_DIO0_N {
        var k := pin - RP_DIO0_P;
        state := if Bit(exCiP, k) then High else Low;
      } else {
        var k := pin - RP_DIO0_N;
        state := if Bit(exCiN, k) then High else Low;
      }
      status := Ok;
    }

    /** rp_EnableDigitalLoop: the loopback register holds the flag as 0 or 1;
        no other register changes. */
    method EnableDigitalLoop(enable: bool) returns (status: Status)
      modifies this
      ensures status == Ok
      ensures Regs() == old(Regs()).(digitalLoop := if enable then 1 else 0)
    {
      digitalLoop := if enable then 1 else 0;
      status := Ok;
    }
  }
}
