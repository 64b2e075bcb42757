/** The PID controller register block of the lockbox API: the shared
    configuration word `conf`, which holds five enable flags for each of the
    four PID instances, and one block of four registers per parameter
    (setpoint, Kp, Ki, Kd, relock minimum, maximum, step size and input).

    The registers are the class `PidRegisters`, whose array mirrors
    pid_control_t word by word; the functions over a sequence of words state
    what each pid_* operation does to the block. The helpers cmn_SetValue,
    cmn_GetValue, cmn_SetBits, cmn_UnsetBits and cmn_AreBitsSet come from
    common.c, which is not part of this model; their assumed behaviour is
    written out in `StoreField`, `LoadField` and the flag functions. */
module Pid {
  import opened Common
  import Analog

  // rp_pid_t
  const RP_PID_11: nat := 0
  const RP_PID_12: nat := 1
  const RP_PID_21: nat := 2
  const RP_PID_22: nat := 3
  const NUM_PIDS: nat := 4

  // Constants of pid.h.
  const SETPOINT_MAX: real := 1.0
  const DATA_BIT_LENGTH: bv32 := 14
  const PID_BASE_SIZE: nat := 0x4C
  const PID_CONF_MASK: bv32 := 0xFFFFF
  const PID_SETPOINT_MASK: bv32 := 0x3FFF
  const PID_KP_MASK: bv32 := 0xFF_FFFF
  const PID_KI_MASK: bv32 := 0xFF_FFFF
  const PID_KD_MASK: bv32 := 0x3FFF
  const PID_STEPSIZE_MASK: bv32 := 0xFF_FFFF
  const PID_RELOCK_MASK: bv32 := 0xFFF
  const PID_RELOCK_INPUT_MASK: bv32 := 0x3

  /** The per-PID value registers of pid_control_t, in struct order. */
  datatype Param =
    | Setpoint | Kp | Ki | Kd
    | RelockMinimum | RelockMaximum | RelockStepsize | RelockInput

  function ParamIndex(p: Param): (i: nat)
    ensures i < 8
  {
    match p
    case Setpoint => 0
    case Kp => 1
    case Ki => 2
    case Kd => 3
    case RelockMinimum => 4
    case RelockMaximum => 5
    case RelockStepsize => 6
    case RelockInput => 7
  }

  /** The mask each pid_* setter and getter passes to cmn_SetValue and
      cmn_GetValue for a register. */
  function ParamMask(p: Param): bv32 {
    match p
    case Setpoint => PID_SETPOINT_MASK
    case Kp => PID_KP_MASK
    case Ki => PID_KI_MASK
    case Kd => PID_KD_MASK
    case RelockMinimum => PID_RELOCK_MASK
    case RelockMaximum => PID_RELOCK_MASK
    case RelockStepsize => PID_STEPSIZE_MASK
    case RelockInput => PID_RELOCK_INPUT_MASK
  }

  /** Words of pid_control_t: conf, reserved[3], then eight blocks of four. */
  const CONF_WORD: nat := 0
  const FIRST_VALUE_WORD: nat := 4
  const PID_WORDS: nat := FIRST_VALUE_WORD + 8 * NUM_PIDS

  /** The word of pid_control_t holding parameter p of PID instance pid:
      the blocks follow `reserved` in struct order, and inside a block the
      instances come in the order PID_11, PID_12, PID_21, PID_22. */
  function WordOf(p: Param, pid: nat): (w: nat)
    requires pid < NUM_PIDS
    ensures FIRST_VALUE_WORD <= w < PID_WORDS
  {
    FIRST_VALUE_WORD + 4 * ParamIndex(p) + pid
  }

  /** Different (parameter, instance) pairs never share a word, and none of
      them is conf or a reserved word. */
  lemma LayoutIsInjective(p: Param, a: nat, q: Param, b: nat)
    requires a < NUM_PIDS && b < NUM_PIDS
    requires WordOf(p, a) == WordOf(q, b)
    ensures p == q && a == b
  {
  }

  /** The widths the header's comments give the masks: conf holds exactly
      twenty flag bits, the setpoint mask is DATA_BIT_LENGTH bits wide, the
      Kp, Ki and step-size masks are 24 bits, Kd is 14 bits, the relock
      limits 12 bits, and the relock-input field has room for exactly the
      four analog inputs. */
  lemma MaskWidths()
    ensures PID_CONF_MASK == (1 << 20) - 1
    ensures PID_SETPOINT_MASK == (1 << DATA_BIT_LENGTH) - 1
    ensures PID_KP_MASK == PID_KI_MASK == PID_STEPSIZE_MASK == (1 << 24) - 1
    ensures PID_KD_MASK == (1 << 14) - 1
    ensures PID_RELOCK_MASK == (1 << 12) - 1
    ensures PID_RELOCK_INPUT_MASK as int == Analog.RP_AIN3 - Analog.RP_AIN0
  {
  }

  /** Byte size of pid_control_t, which the mapping has to cover. */
  const PID_BLOCK_SIZE: nat := 4 * PID_WORDS

  /** As written, the mapped size PID_BASE_SIZE (0x4C) ends at the Kd
      register of PID_22: that register and every relock register (minimum,
      maximum, step size and input) of every instance lie past it. */
  lemma BaseSizeMissesRegisters()
    ensures 4 * WordOf(Kd, RP_PID_22) == PID_BASE_SIZE
    ensures forall p: Param, pid: nat :: pid < NUM_PIDS && ParamIndex(p) >= 4 ==>
      4 * WordOf(p, pid) >= PID_BASE_SIZE
  {
  }

  /** Every register the pid_* functions address lies inside the struct's
      own size, PID_BLOCK_SIZE. */
  lemma BlockSizeCoversRegisters(p: Param, pid: nat)
    requires pid < NUM_PIDS
    ensures 4 * WordOf(p, pid) + 4 <= PID_BLOCK_SIZE
    ensures PID_BLOCK_SIZE == 0x90
  {
  }

  // ---------------------------------------------------------------------
  // The flags in conf

  /** The five boolean settings packed into conf, in bit-group order. */
  datatype Flag = IntReset | Inverted | ResetWhenRailed | IntegratorHold | Relock

  function FlagGroup(f: Flag): bv32 {
    match f
    case IntReset => 0
    case Inverted => 1
    case ResetWhenRailed => 2
    case IntegratorHold => 3
    case Relock => 4
  }

  /** The conf bit of flag f of PID instance pid: four bits per flag, one
      per instance. */
  function ConfBit(f: Flag, pid: nat): (k: bv32)
    requires pid < NUM_PIDS
    ensures k < 20
  {
    4 * FlagGroup(f) + InstanceBit(pid)
  }

  /** The position of an instance inside a flag group: PID_11, PID_12,
      PID_21, PID_22 are bits 0, 1, 2, 3. */
  function InstanceBit(pid: nat): (k: bv32)
    requires pid < NUM_PIDS
    ensures k < 4
  {
    if pid == RP_PID_11 then 0
    else if pid == RP_PID_12 then 1
    else if pid == RP_PID_21 then 2
    else 3
  }

  /** The `0x1 << n` each flag function passes to cmn_SetBits,
      cmn_UnsetBits and cmn_AreBitsSet. */
  function FlagMask(f: Flag, pid: nat): bv32
    requires pid < NUM_PIDS
  {
    SingleBit(ConfBit(f, pid))
  }

  /** Different (flag, instance) pairs have different conf bits. */
  lemma ConfBitIsInjective(f: Flag, a: nat, g: Flag, b: nat)
    requires a < NUM_PIDS && b < NUM_PIDS
    requires ConfBit(f, a) == ConfBit(g, b)
    ensures f == g && a == b
  {
  }

  /** Every flag bit lies inside PID_CONF_MASK, and different
      (flag, instance) pairs use different bits. */
  lemma FlagPlacement(f: Flag, a: nat, g: Flag, b: nat)
    requires a < NUM_PIDS && b < NUM_PIDS
    ensures FlagMask(f, a) & PID_CONF_MASK == FlagMask(f, a) != 0
    ensures (f, a) != (g, b) ==> FlagMask(f, a) & FlagMask(g, b) == 0
  {
    if ConfBit(f, a) == ConfBit(g, b) {
      ConfBitIsInjective(f, a, g, b);
    }
    SingleBits(ConfBit(f, a), ConfBit(g, b));
    SingleBitBelow(ConfBit(f, a), 20);
  }

  /** cmn_SetBits as assumed here: the bits are ORed into the word. */
  function SetBits(word: bv32, bits: bv32): bv32 {
    word | bits
  }

  /** cmn_UnsetBits as assumed here: the bits are cleared from the word. */
  function UnsetBits(word: bv32, bits: bv32): bv32 {
    word & !bits
  }

  /** cmn_AreBitsSet as assumed here: every one of the bits is set. */
  function AreBitsSet(word: bv32, bits: bv32): bool {
    word & bits == bits
  }

  // One bit-vector fact per lemma keeps each proof small for the solver;
  // BitsSetThenGet and BitsIndependent put them together.

  lemma SetBitsReadsSet(word: bv32, bits: bv32)
    ensures AreBitsSet(SetBits(word, bits), bits)
  {
  }

  lemma UnsetBitsReadsClear(word: bv32, bits: bv32)
    requires bits != 0
    ensures !AreBitsSet(UnsetBits(word, bits), bits)
  {
  }

  lemma SetBitsKeepsRest(word: bv32, bits: bv32)
    ensures SameOutside(SetBits(word, bits), word, bits)
  {
  }

  lemma UnsetBitsKeepsRest(word: bv32, bits: bv32)
    ensures SameOutside(UnsetBits(word, bits), word, bits)
  {
  }

  lemma SetBitsKeepsDisjoint(word: bv32, bits: bv32, other: bv32)
    requires bits & other == 0
    ensures AreBitsSet(SetBits(word, bits), other) == AreBitsSet(word, other)
  {
  }

  lemma UnsetBitsKeepsDisjoint(word: bv32, bits: bv32, other: bv32)
    requires bits & other == 0
    ensures AreBitsSet(UnsetBits(word, bits), other) == AreBitsSet(word, other)
  {
  }

  /** Setting a non-empty group of bits makes it read as set, clearing it
      makes it read as not set, and neither touches any other bit. */
  lemma BitsSetThenGet(word: bv32, bits: bv32)
    requires bits != 0
    ensures AreBitsSet(SetBits(word, bits), bits)
    ensures !AreBitsSet(UnsetBits(word, bits), bits)
    ensures SameOutside(SetBits(word, bits), word, bits)
    ensures SameOutside(UnsetBits(word, bits), word, bits)
  {
    SetBitsReadsSet(word, bits);
    UnsetBitsReadsClear(word, bits);
    SetBitsKeepsRest(word, bits);
    UnsetBitsKeepsRest(word, bits);
  }

  /** Writing one group of bits does not change whether a disjoint group
      reads as set. */
  lemma BitsIndependent(word: bv32, bits: bv32, other: bv32)
    requires bits & other == 0
    ensures AreBitsSet(SetBits(word, bits), other) == AreBitsSet(word, other)
    ensures AreBitsSet(UnsetBits(word, bits), other) == AreBitsSet(word, other)
  {
    SetBitsKeepsDisjoint(word, bits, other);
    UnsetBitsKeepsDisjoint(word, bits, other);
  }

  /** The block after a setter and the status it returns. */
  datatype Outcome = Outcome(status: Status, regs: seq<bv32>)

  /** pid_SetPIDIntReset, pid_SetPIDInverted, pid_SetResetWhenRailed,
      pid_SetIntegratorHold and pid_SetPIDRelock: RP_EPN for an unknown
      instance, otherwise the flag's conf bit is set (cmn_SetBits, assumed
      to OR the bits in) or cleared (cmn_UnsetBits, assumed to AND them
      out). */
  function SetFlag(regs: seq<bv32>, f: Flag, pid: nat, enable: bool): Outcome
    requires |regs| == PID_WORDS
  {
    if pid >= NUM_PIDS then Outcome(EPN, regs)
    else if enable then Outcome(Ok, regs[CONF_WORD := SetBits(regs[CONF_WORD], FlagMask(f, pid))])
    else Outcome(Ok, regs[CONF_WORD := UnsetBits(regs[CONF_WORD], FlagMask(f, pid))])
  }

  /** The matching getters: RP_EPN for an unknown instance, otherwise
      whether the flag's conf bit is set (cmn_AreBitsSet). */
  function GetFlag(regs: seq<bv32>, f: Flag, pid: nat): Reading<bool>
    requires |regs| == PID_WORDS
  {
    if pid >= NUM_PIDS then Reading(EPN, None)
    else Reading(Ok, Some(AreBitsSet(regs[CONF_WORD], FlagMask(f, pid))))
  }

  /** Setting a flag and reading it back returns the value written. */
  lemma FlagSetThenGet(regs: seq<bv32>, f: Flag, pid: nat, enable: bool)
    requires |regs| == PID_WORDS && pid < NUM_PIDS
    ensures SetFlag(regs, f, pid, enable).status == Ok
    ensures GetFlag(SetFlag(regs, f, pid, enable).regs, f, pid) == Reading(Ok, Some(enable))
  {
    FlagPlacement(f, pid, f, pid);
    BitsSetThenGet(regs[CONF_WORD], FlagMask(f, pid));
  }

  /** A flag setter changes no word but conf and, in conf, no bit but its
      own. */
  lemma FlagSetterTouchesOneBit(regs: seq<bv32>, f: Flag, pid: nat, enable: bool)
    requires |regs| == PID_WORDS && pid < NUM_PIDS
    ensures SetFlag(regs, f, pid, enable).regs[CONF_WORD + 1..] == regs[CONF_WORD + 1..]
    ensures SameOutside(SetFlag(regs, f, pid, enable).regs[CONF_WORD], regs[CONF_WORD], FlagMask(f, pid))
  {
    var w, m := regs[CONF_WORD], FlagMask(f, pid);
    var w' := SetFlag(regs, f, pid, enable).regs[CONF_WORD];
    if enable {
      assert w' == SetBits(w, m);
      SetBitsKeepsRest(w, m);
    } else {
      assert w' == UnsetBits(w, m);
      UnsetBitsKeepsRest(w, m);
    }
  }

  /** A flag setter leaves every other flag of every instance reading as
      before. */
  lemma FlagIsolation(regs: seq<bv32>, f: Flag, pid: nat, enable: bool, g: Flag, q: nat)
    requires |regs| == PID_WORDS && pid < NUM_PIDS && q < NUM_PIDS
    requires (g, q) != (f, pid)
    ensures GetFlag(SetFlag(regs, f, pid, enable).regs, g, q) == GetFlag(regs, g, q)
  {
    var m, o := FlagMask(f, pid), FlagMask(g, q);
    FlagPlacement(f, pid, g, q);
    BitsIndependent(regs[CONF_WORD], m, o);
  }

  // ---------------------------------------------------------------------
  // The value registers

  /** cmn_SetValue as assumed here: the bits under the mask take the value's
      bits and the others keep theirs. The range check of the real helper is
      not part of this model. */
  function StoreField(word: bv32, value: bv32, mask: bv32): bv32 {
    (word & !mask) | (value & mask)
  }

  /** cmn_GetValue as assumed here: the bits under the mask. */
  function LoadField(word: bv32, mask: bv32): bv32 {
    word & mask
  }

  /** Reading a field back after storing returns the stored value cut to
      the mask. */
  lemma StoreThenLoad(word: bv32, value: bv32, mask: bv32)
    ensures LoadField(StoreField(word, value, mask), mask) == value & mask
  {
  }

  /** A value read through a mask fits that mask. */
  lemma LoadFieldFits(word: bv32, mask: bv32)
    ensures LoadField(word, mask) & mask == LoadField(word, mask)
  {
  }

  /** Storing a field leaves the bits outside its mask as they were. */
  lemma StoreKeepsRest(word: bv32, value: bv32, mask: bv32)
    ensures StoreField(word, value, mask) & !mask == word & !mask
  {
  }

  /** What the pid_* setters do once the code is computed: RP_EPN for an
      unknown instance, otherwise cmn_SetValue on the instance's own word. */
  function SetField(regs: seq<bv32>, p: Param, pid: nat, code: bv32): Outcome
    requires |regs| == PID_WORDS
  {
    if pid >= NUM_PIDS then Outcome(EPN, regs)
    else Outcome(Ok, regs[WordOf(p, pid) := StoreField(regs[WordOf(p, pid)], code, ParamMask(p))])
  }

  /** What the pid_* getters read before any conversion: RP_EPN for an
      unknown instance, otherwise cmn_GetValue on the instance's own word. */
  function GetField(regs: seq<bv32>, p: Param, pid: nat): Reading<bv32>
    requires |regs| == PID_WORDS
  {
    if pid >= NUM_PIDS then Reading(EPN, None)
    else Reading(Ok, Some(LoadField(regs[WordOf(p, pid)], ParamMask(p))))
  }

  /** A value setter writes only its own instance's word of its own
      parameter; a code that fits the mask is read back unchanged, and any
      other code is read back cut to the mask. */
  lemma SetFieldThenGet(regs: seq<bv32>, p: Param, pid: nat, code: bv32)
    requires |regs| == PID_WORDS && pid < NUM_PIDS
    ensures var r' := SetField(regs, p, pid, code).regs;
      && SetField(regs, p, pid, code).status == Ok
      && GetField(r', p, pid) == Reading(Ok, Some(code & ParamMask(p)))
      && (code & ParamMask(p) == code ==> GetField(r', p, pid) == Reading(Ok, Some(code)))
  {
    StoreThenLoad(regs[WordOf(p, pid)], code, ParamMask(p));
  }

  /** A value setter leaves conf and every other register, of its own
      instance or of another, as it was. */
  lemma SetFieldIsolation(regs: seq<bv32>, p: Param, pid: nat, code: bv32, q: Param, other: nat)
    requires |regs| == PID_WORDS && pid < NUM_PIDS && other < NUM_PIDS
    requires (q, other) != (p, pid)
    ensures var r' := SetField(regs, p, pid, code).regs;
      && GetField(r', q, other) == GetField(regs, q, other)
      && r'[CONF_WORD] == regs[CONF_WORD]
  {
    if WordOf(q, other) == WordOf(p, pid) {
      LayoutIsInjective(q, other, p, pid);
    }
  }

  /** Every setter refuses an unknown instance with RP_EPN and leaves the
      block as it was. */
  lemma UnknownInstanceRefused(regs: seq<bv32>, p: Param, f: Flag, pid: nat, code: bv32, enable: bool)
    requires |regs| == PID_WORDS && pid >= NUM_PIDS
    ensures SetField(regs, p, pid, code) == Outcome(EPN, regs)
    ensures SetFlag(regs, f, pid, enable) == Outcome(EPN, regs)
    ensures GetField(regs, p, pid) == Reading(EPN, None)
    ensures GetFlag(regs, f, pid) == Reading(EPN, None)
  {
  }

  /** Applies a conversion to the value of a reading, keeping its status. */
  function Convert<T, U>(r: Reading<T>, conv: T -> U): (v: Reading<U>)
    ensures v.status == r.status && v.value.Some? == r.value.Some?
  {
    match r.value
    case None => Reading(r.status, None)
    case Some(x) => Reading(r.status, Some(conv(x)))
  }

  // Kp, Ki and the relock step size: sign check, then clamp.

  /** The three parameters whose setters reject negative input and clamp
      the code: pid_SetPIDKp, pid_SetPIDKi and pid_SetRelockStepsize. */
  datatype Gain = KpGain | KiGain | StepsizeGain

  function GainParam(g: Gain): Param {
    match g
    case KpGain => Kp
    case KiGain => Ki
    case StepsizeGain => RelockStepsize
  }

  /** The clamp `if (code > mask) code = mask`. */
  function Clamp(code: bv32, mask: bv32): (c: bv32)
    ensures c <= mask && c <= code
    ensures c == code || c == mask
  {
    if code > mask then mask else code
  }

  /** pid_SetPIDKp, pid_SetPIDKi and pid_SetRelockStepsize: a negative value
      is RP_EIPV before the instance is looked at; otherwise the code the
      rounding produces (`toCode`, the float arithmetic) is clamped to the
      register's mask and stored. */
  function SetGain(regs: seq<bv32>, g: Gain, pid: nat, x: real, toCode: real -> bv32): Outcome
    requires |regs| == PID_WORDS
  {
    if x < 0.0 then Outcome(EIPV, regs)
    else SetField(regs, GainParam(g), pid, Clamp(toCode(x), ParamMask(GainParam(g))))
  }

  /** A negative gain is refused with RP_EIPV and no write, whatever the
      instance; a non-negative one on a known instance is stored as its code
      clamped to the mask, which is what the getter then reads. */
  lemma GainSignAndClamp(regs: seq<bv32>, g: Gain, pid: nat, x: real, toCode: real -> bv32)
    requires |regs| == PID_WORDS
    ensures x < 0.0 ==> SetGain(regs, g, pid, x, toCode) == Outcome(EIPV, regs)
    ensures x >= 0.0 && pid < NUM_PIDS ==>
      var o := SetGain(regs, g, pid, x, toCode);
      var m := ParamMask(GainParam(g));
      && o.status == Ok
      && GetField(o.regs, GainParam(g), pid) == Reading(Ok, Some(Clamp(toCode(x), m)))
      && (toCode(x) > m ==> GetField(o.regs, GainParam(g), pid) == Reading(Ok, Some(m)))
  {
    if x >= 0.0 && pid < NUM_PIDS {
      var m := ParamMask(GainParam(g));
      SetFieldThenGet(regs, GainParam(g), pid, Clamp(toCode(x), m));
    }
  }

  // Setpoint routing.

  /** The two fast input channels whose calibration converts a setpoint. */
  datatype Channel = ChannelA | ChannelB

  /** PID_11 and PID_21 take their input from channel A, PID_12 and PID_22
      from channel B. */
  function SetpointChannel(pid: nat): (c: Option<Channel>)
    ensures c.Some? <==> pid < NUM_PIDS
  {
    if pid == RP_PID_11 || pid == RP_PID_21 then Some(ChannelA)
    else if pid == RP_PID_22 || pid == RP_PID_12 then Some(ChannelB)
    else None
  }

  /** pid_SetPIDSetpoint: the setpoint is converted to counts with the
      calibration of the instance's input channel (`toCounts`, standing for
      cmn_CnvVToCnt with that channel's gain and offset) and stored under
      PID_SETPOINT_MASK; an unknown instance is RP_EPN. */
  function SetSetpoint(regs: seq<bv32>, pid: nat, v: real, toCounts: (Channel, real) -> bv32): Outcome
    requires |regs| == PID_WORDS
  {
    match SetpointChannel(pid)
    case None => Outcome(EPN, regs)
    case Some(c) => SetField(regs, Setpoint, pid, toCounts(c, v))
  }

  /** pid_GetPIDSetpoint: the counts are read under PID_SETPOINT_MASK and
      converted back with the same channel's calibration. */
  function GetSetpoint(regs: seq<bv32>, pid: nat, toVolts: (Channel, bv32) -> real): Reading<real>
    requires |regs| == PID_WORDS
  {
    match SetpointChannel(pid)
    case None => Reading(EPN, None)
    case Some(c) => Convert(GetField(regs, Setpoint, pid), (n: bv32) => toVolts(c, n))
  }

  /** Setpoints of PID_11 and PID_21 go through channel A's calibration,
      those of PID_12 and PID_22 through channel B's, both when written and
      when read back. */
  lemma SetpointRouting(regs: seq<bv32>, pid: nat, v: real,
                        toCounts: (Channel, real) -> bv32, toVolts: (Channel, bv32) -> real)
    requires |regs| == PID_WORDS && pid < NUM_PIDS
    ensures SetpointChannel(pid) == Some(if pid == RP_PID_11 || pid == RP_PID_21 then ChannelA else ChannelB)
    ensures var c := SetpointChannel(pid).value;
      var r' := SetSetpoint(regs, pid, v, toCounts).regs;
      && SetSetpoint(regs, pid, v, toCounts).status == Ok
      && GetField(r', Setpoint, pid) == Reading(Ok, Some(toCounts(c, v) & PID_SETPOINT_MASK))
      && GetSetpoint(r', pid, toVolts) == Reading(Ok, Some(toVolts(c, toCounts(c, v) & PID_SETPOINT_MASK)))
  {
    var c := SetpointChannel(pid).value;
    SetFieldThenGet(regs, Setpoint, pid, toCounts(c, v));
  }

  // The relock input.

  /** pid_SetRelockInput: a pin above RP_AIN3 is RP_EPN; otherwise
      `pin - RP_AIN0`, computed on 32-bit unsigned values, is stored under
      PID_RELOCK_INPUT_MASK. */
  function SetRelockInput(regs: seq<bv32>, pid: nat, pin: nat): Outcome
    requires |regs| == PID_WORDS
  {
    if pin > Analog.RP_AIN3 then Outcome(EPN, regs)
    else SetField(regs, RelockInput, pid, RelockCode(pin))
  }

  /** The code `pin - RP_AIN0` that pid_SetRelockInput stores, computed on
      32-bit unsigned values. */
  function RelockCode(pin: nat): bv32
    requires pin <= Analog.RP_AIN3
  {
    (pin as bv32) - (Analog.RP_AIN0 as bv32)
  }

  /** A pin up to RP_AIN3 is stored as its code. */
  lemma RelockInputStoresCode(regs: seq<bv32>, pid: nat, pin: nat)
    requires |regs| == PID_WORDS && pin <= Analog.RP_AIN3
    ensures SetRelockInput(regs, pid, pin) == SetField(regs, RelockInput, pid, RelockCode(pin))
  {
  }

  /** pid_GetRelockInput: the stored field plus RP_AIN0. */
  function GetRelockInput(regs: seq<bv32>, pid: nat): Reading<nat>
    requires |regs| == PID_WORDS
  {
    Convert(GetField(regs, RelockInput, pid), (n: bv32) => (n as int) + Analog.RP_AIN0)
  }

  /** The relock input round-trips for AIN0..AIN3, and whatever the field
      holds, the getter names one of AIN0..AIN3. */
  lemma RelockInputRoundTrip(regs: seq<bv32>, pid: nat, pin: nat)
    requires |regs| == PID_WORDS && pid < NUM_PIDS
    ensures Analog.RP_AIN0 <= pin <= Analog.RP_AIN3 ==>
      GetRelockInput(SetRelockInput(regs, pid, pin).regs, pid) == Reading(Ok, Some(pin))
    ensures pin > Analog.RP_AIN3 ==> SetRelockInput(regs, pid, pin) == Outcome(EPN, regs)
    ensures var r := GetRelockInput(regs, pid);
      r.status == Ok && Analog.RP_AIN0 <= r.value.value <= Analog.RP_AIN3
  {
    GetRelockInputInRange(regs, pid);
    if Analog.RP_AIN0 <= pin <= Analog.RP_AIN3 {
      var code := (pin as bv32) - 4;
      assert code & PID_RELOCK_INPUT_MASK == code;
      SetFieldThenGet(regs, RelockInput, pid, code);
    }
  }

  /** Whatever the relock-input field holds, pid_GetRelockInput reports one
      of RP_AIN0..RP_AIN3, and it succeeds exactly for a known instance. */
  lemma GetRelockInputInRange(regs: seq<bv32>, pid: nat)
    requires |regs| == PID_WORDS
    ensures var r := GetRelockInput(regs, pid);
      && (r.status == Ok <==> pid < NUM_PIDS)
      && (r.status == Ok ==> Analog.RP_AIN0 <= r.value.value <= Analog.RP_AIN3)
  {
    if pid < NUM_PIDS {
      assert LoadField(regs[WordOf(RelockInput, pid)], PID_RELOCK_INPUT_MASK) <= 3;
    }
  }

  // ---------------------------------------------------------------------
  // Kd through the float wrappers of api/src/lockbox.c

  /** 2^149: a float whose exponent field is zero has the value of its
      mantissa field divided by this. */
  const SUBNORMAL_SCALE: real := 713623846352979940529142984724747568191373312.0

  /** The value of a 32-bit IEEE-754 float whose sign and exponent fields
      are zero and whose mantissa field is `mantissa`: the subnormal number
      mantissa * 2^-149, which lies below 1. */
  function SubnormalValue(mantissa: nat): (x: real)
    requires mantissa < 0x80_0000
    ensures 0.0 <= x < 1.0
  {
    mantissa as real / SUBNORMAL_SCALE
  }

  /** A Kd code, read as an integer, is a valid mantissa field. */
  lemma KdCodeIsMantissa(code: bv32)
    requires code <= PID_KD_MASK
    ensures code as int <= 0x3FFF
  {
  }

  /** C's conversion of a non-negative float below 2^32 to uint32_t, which
      truncates toward zero. */
  function FloatToCode(x: real): (code: nat)
    requires 0.0 <= x < 4294967296.0
    ensures code < 0x1_0000_0000
    ensures code as real <= x < (code + 1) as real
  {
    x.Floor
  }

  /** The Kd code rp_LoadLockboxConfig stores for a code that
      rp_SaveLockboxConfig saved, as written: rp_PIDGetKd hands its float
      out-pointer to pid_GetPIDKd, which stores the code's bits in it, and
      rp_PIDSetKd converts that float's value back to an integer. A Kd code
      has at most 14 bits, so the float is a subnormal. */
  function KdRestoredAsWritten(code: bv32): bv32
    requires code <= PID_KD_MASK
  {
    KdCodeIsMantissa(code);
    FloatToCode(SubnormalValue(code as int)) as bv32
  }

  /** As written, saving and loading the configuration clears Kd: whatever
      code the saved block held, the restored block reads back 0. */
  lemma KdSaveLoadAsWrittenClears(saved: seq<bv32>, current: seq<bv32>, pid: nat)
    requires |saved| == PID_WORDS && |current| == PID_WORDS && pid < NUM_PIDS
    ensures var code := GetField(saved, Kd, pid).value.value;
      && code <= PID_KD_MASK
      && GetField(SetField(current, Kd, pid, KdRestoredAsWritten(code)).regs, Kd, pid) == Reading(Ok, Some(0))
  {
    var code := GetField(saved, Kd, pid).value.value;
    assert code <= PID_KD_MASK;
    assert KdRestoredAsWritten(code) == 0;
    SetFieldThenGet(current, Kd, pid, 0);
  }

  /** The saved block with Kd code 1 in PID_11 is one whose Kd the round
      trip as written loses. */
  lemma KdSaveLoadAsWrittenLosesOne()
    ensures var saved := seq(PID_WORDS, w => if w == WordOf(Kd, RP_PID_11) then 1 else 0);
      && GetField(saved, Kd, RP_PID_11) == Reading(Ok, Some(1))
      && GetField(SetField(saved, Kd, RP_PID_11, KdRestoredAsWritten(1)).regs, Kd, RP_PID_11)
         != GetField(saved, Kd, RP_PID_11)
  {
    var saved := seq(PID_WORDS, w => if w == WordOf(Kd, RP_PID_11) then 1 else 0);
    KdSaveLoadAsWrittenClears(saved, saved, RP_PID_11);
  }

  /** Corrected: when the saved Kd travels as the integer code that
      pid_GetPIDKd reads and pid_SetPIDKd takes, loading it into any block
      reads back exactly the saved code. */
  lemma KdSaveLoadRoundTrip(saved: seq<bv32>, current: seq<bv32>, pid: nat)
    requires |saved| == PID_WORDS && |current| == PID_WORDS && pid < NUM_PIDS
    ensures var code := GetField(saved, Kd, pid).value.value;
      GetField(SetField(current, Kd, pid, code).regs, Kd, pid) == GetField(saved, Kd, pid)
  {
    LoadFieldFits(saved[WordOf(Kd, pid)], PID_KD_MASK);
    SetFieldThenGet(current, Kd, pid, GetField(saved, Kd, pid).value.value);
  }

  /** The PID register block. */
  class PidRegisters {
    const regs: array<bv32>

    predicate Valid()
    {
      regs.Length == PID_WORDS
    }

    constructor ()
      ensures Valid() && fresh(regs)
      ensures forall i :: 0 <= i < PID_WORDS ==> regs[i] == 0
    {
      regs := new bv32[PID_WORDS](_ => 0);
    }

    /** cmn_SetValue on one word. */
    method StoreValue(word: nat, value: bv32, mask: bv32)
      requires Valid() && word < PID_WORDS
      modifies regs
      ensures regs[..] == old(regs[..])[word := StoreField(old(regs[word]), value, mask)]
    {
      regs[word] := StoreField(regs[word], value, mask);
    }

    /** The flag setters of pid.c (pid_SetPIDIntReset and its four
        siblings), one `flag` per function. */
    method SetFlagBit(flag: Flag, pid: nat, enable: bool) returns (status: Status)
      requires Valid()
      modifies regs
      ensures Outcome(status, regs[..]) == SetFlag(old(regs[..]), flag, pid, enable)
    {
      if pid >= NUM_PIDS {
        return EPN;
      }
      var bits := FlagMask(flag, pid);
      if enable {
        regs[CONF_WORD] := SetBits(regs[CONF_WORD], bits);
      } else {
        regs[CONF_WORD] := UnsetBits(regs[CONF_WORD], bits);
      }
      status := Ok;
    }

    /** The flag getters of pid.c (pid_GetPIDIntReset and its four
        siblings). */
    method GetFlagBit(flag: Flag, pid: nat) returns (status: Status, enabled: Option<bool>)
      requires Valid()
      ensures Reading(status, enabled) == GetFlag(regs[..], flag, pid)
    {
      if pid >= NUM_PIDS {
        return EPN, None;
      }
      var bits := FlagMask(flag, pid);
      enabled := Some(AreBitsSet(regs[CONF_WORD], bits));
      status := Ok;
    }

    /** The switch over the instance that every value setter ends with. */
    method SetValue(p: Param, pid: nat, code: bv32) returns (status: Status)
      requires Valid()
      modifies regs
      ensures Outcome(status, regs[..]) == SetField(old(regs[..]), p, pid, code)
    {
      if pid >= NUM_PIDS {
        return EPN;
      }
      StoreValue(WordOf(p, pid), code, ParamMask(p));
      status := Ok;
    }

    /** The switch over the instance that every value getter starts with. */
    method GetValue(p: Param, pid: nat) returns (status: Status, code: Option<bv32>)
      requires Valid()
      ensures Reading(status, code) == GetField(regs[..], p, pid)
    {
      if pid >= NUM_PIDS {
        return EPN, None;
      }
      code := Some(LoadField(regs[WordOf(p, pid)], ParamMask(p)));
      status := Ok;
    }

    /** pid_SetPIDSetpoint */
    method SetPIDSetpoint(pid: nat, setpoint: real, toCounts: (Channel, real) -> bv32)
      returns (status: Status)
      requires Valid()
      modifies regs
      ensures Outcome(status, regs[..]) == SetSetpoint(old(regs[..]), pid, setpoint, toCounts)
    {
      var counts;
      if pid == RP_PID_11 || pid == RP_PID_21 {
        counts := toCounts(ChannelA, setpoint);
      } else if pid == RP_PID_22 || pid == RP_PID_12 {
        counts := toCounts(ChannelB, setpoint);
      } else {
        return EPN;
      }
      status := SetValue(Setpoint, pid, counts);
    }

    /** pid_GetPIDSetpoint */
    method GetPIDSetpoint(pid: nat, toVolts: (Channel, bv32) -> real)
      returns (status: Status, setpoint: Option<real>)
      requires Valid()
      ensures Reading(status, setpoint) == GetSetpoint(regs[..], pid, toVolts)
    {
      var counts;
      status, counts := GetValue(Setpoint, pid);
      if status != Ok {
        return status, None;
      }
      if pid == RP_PID_11 || pid == RP_PID_21 {
        setpoint := Some(toVolts(ChannelA, counts.value));
      } else {
        setpoint := Some(toVolts(ChannelB, counts.value));
      }
    }

    /** pid_SetPIDKp, pid_SetPIDKi and pid_SetRelockStepsize. */
    method SetPIDGain(gain: Gain, pid: nat, x: real, toCode: real -> bv32) returns (status: Status)
      requires Valid()
      modifies regs
      ensures Outcome(status, regs[..]) == SetGain(old(regs[..]), gain, pid, x, toCode)
    {
      if x < 0.0 {
        return EIPV;
      }
      var code := toCode(x);
      var mask := ParamMask(GainParam(gain));
      if code > mask {
        code := mask;
      }
      status := SetValue(GainParam(gain), pid, code);
    }

    /** pid_GetPIDKp, pid_GetPIDKi, pid_GetRelockStepsize,
        pid_GetRelockMinimum and pid_GetRelockMaximum: the register read
        under its mask, then scaled by `toReal`. */
    method GetScaled(p: Param, pid: nat, toReal: bv32 -> real) returns (status: Status, value: Option<real>)
      requires Valid()
      ensures Reading(status, value) == Convert(GetField(regs[..], p, pid), toReal)
    {
      var code;
      status, code := GetValue(p, pid);
      value := if code.Some? then Some(toReal(code.value)) else None;
    }

    /** pid_SetPIDKd */
    method SetPIDKd(pid: nat, kd: bv32) returns (status: Status)
      requires Valid()
      modifies regs
      ensures Outcome(status, regs[..]) == SetField(old(regs[..]), Kd, pid, kd)
    {
      status := SetValue(Kd, pid, kd);
    }

    /** pid_GetPIDKd */
    method GetPIDKd(pid: nat) returns (status: Status, kd: Option<bv32>)
      requires Valid()
      ensures Reading(status, kd) == GetField(regs[..], Kd, pid)
      ensures status == Ok ==> kd.value <= PID_KD_MASK
    {
      status, kd := GetValue(Kd, pid);
    }

    /** pid_SetRelockMinimum and pid_SetRelockMaximum: no sign check; the
        counts (`toCounts`, the float arithmetic) are stored under
        PID_RELOCK_MASK. */
    method SetRelockLimit(maximum: bool, pid: nat, x: real, toCounts: real -> bv32)
      returns (status: Status)
      requires Valid()
      modifies regs
      ensures Outcome(status, regs[..]) ==
        SetField(old(regs[..]), if maximum then RelockMaximum else RelockMinimum, pid, toCounts(x))
    {
      var counts := toCounts(x);
      status := SetValue(if maximum then RelockMaximum else RelockMinimum, pid, counts);
    }

    /** pid_SetRelockInput */
    method SetPIDRelockInput(pid: nat, pin: nat) returns (status: Status)
      requires Valid()
      modifies regs
      ensures Outcome(status, regs[..]) == SetRelockInput(old(regs[..]), pid, pin)
    {
      if pin > Analog.RP_AIN3 {
        return EPN;
      }
      RelockInputStoresCode(regs[..], pid, pin);
      status := SetValue(RelockInput, pid, RelockCode(pin));
    }

    /** pid_GetRelockInput */
    method GetPIDRelockInput(pid: nat) returns (status: Status, pin: Option<nat>)
      requires Valid()
      ensures Reading(status, pin) == GetRelockInput(regs[..], pid)
      ensures status == Ok ==> Analog.RP_AIN0 <= pin.value <= Analog.RP_AIN3
    {
      var field;
      status, field := GetValue(RelockInput, pid);
      pin := if field.Some? then Some((field.value as int) + Analog.RP_AIN0) else None;
      GetRelockInputInRange(regs[..], pid);
    }
  }
}
