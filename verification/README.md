# rp-lockbox API core, modelled in Dafny

This project models the core of the Red Pitaya lockbox C API and of its SCPI
front-end for the PID controllers:

- `common.dfy` (module `Common`): the RP_* status codes, an optional value,
  the getter result `Reading`, and single-bit access to 32-bit register words.
- `digital.dfy` (module `Digital`): the digital pins `rp_Dpin*` and
  `rp_EnableDigitalLoop` over the housekeeping registers. This covers the
  eight LEDs and the P and N banks, with direction, output, input-capture and
  loopback registers.
- `analog.dfy` (module `Analog`): the register layout and constants of
  `analog_mixed_signals.h`, and the slow analog pins. This covers
  `rp_AIpinGetValueRaw`/`rp_AIpinGetValue`, the `rp_AOpin*` output bank, and the
  flat `rp_Apin*` numbering, where 0..3 are outputs, 4..7 are inputs and
  anything above is RP_EPN.
- `pid.dfy` (module `Pid`): the PID register block `pid_control_t` and its
  masks from `pid.h`, and the `pid_*` operations of `api/src/pid.c`:
  - the five per-instance flags packed into `conf`;
  - the value registers, including Kd;
  - the sign check and clamp of the gains;
  - the routing of setpoints to input channel A or B;
  - the relock input.
- `snapshot.dfy` (module `Snapshot`): `rp_SaveLockboxConfig` and
  `rp_LoadLockboxConfig`. The settings they read and write form an abstract
  parameter store: a map from each saved setting (19 per PID, 8 per output
  channel) to its value. Each setter call is logged. The configuration file
  holds one record, or nothing when it cannot be opened.
- `scpi_pid.dfy` (module `ScpiPid`): the PID commands of the SCPI server. This
  covers:
  - `RP_ParsePIDArgv`;
  - the `scpi_RpAinput` choice table;
  - the five flag commands and their ON/OFF queries;
  - the relock-input command and query;
  - the configuration save and load commands.

State that the C code changes in place is a class in the model:
- `Digital.Housekeeping` holds the housekeeping registers;
- `Analog.AnalogMixedSignals` holds the ADC and DAC words;
- `Pid.PidRegisters` holds the PID block;
- `Snapshot.Lockbox` holds the settings, the call log and the file.

Each method is proved against a function over a snapshot of that state. The
lemmas state the properties the code promises about those functions.

## Model

| member | source | states |
|---|---|---|
| Common.WriteBitSame | api/src/lockbox.c:268 | after the read-modify-write `(tmp & ~(1 << pin)) \| ((v << pin) & (1 << pin))`, bit `pin` holds the low bit of `v` |
| Common.WriteBitRest | api/src/lockbox.c:268 | the same write leaves every other bit of the word as it was |
| Common.WriteBitOther | api/src/lockbox.c:258-292 | reading a different bit after the write gives its old value |
| Digital.PinAt | api/src/lockbox.c:258-276 | every (group, bit) pair names exactly the pin whose group and offset it is (inverse of the pin-to-bit split) |
| Digital.AddressingIsInjective | api/src/lockbox.c:258-333 | two different pins never share a bit of the same group |
| Digital.LedDirectionIsFixed | api/src/lockbox.c:258-281 | an LED always reads as RP_OUT; setting RP_OUT succeeds, setting RP_IN fails with RP_ELID, and neither writes a register |
| Digital.BankSetDirectionThenGet | api/src/lockbox.c:264-290 | on a bank pin, setting a direction succeeds and reading it back gives that direction; only the direction registers change |
| Digital.SetDirectionKeepsOtherPins | api/src/lockbox.c:258-292 | setting one pin's direction leaves every other pin's direction as it was |
| Digital.BankSetDirectionTouchesOneBit | api/src/lockbox.c:264-274 | the bank's direction register changes in the pin's bit only |
| Digital.SetStateOnInputIsRefused | api/src/lockbox.c:294-300 | writing the state of a pin that reads as an input returns RP_EWIP and writes nothing |
| Digital.SetStateOnOutput | api/src/lockbox.c:301-317 | writing the state of an output pin succeeds, its output bit becomes the state written, and no direction or capture register changes |
| Digital.SetStateKeepsOtherPins | api/src/lockbox.c:301-317 | writing one pin's state leaves every other pin's output bit as it was |
| Digital.LedStateRoundTrip | api/src/lockbox.c:301-322 | for an LED, reading the state after writing it returns the state written |
| Digital.BankStateIgnoresSetState | api/src/lockbox.c:319-333 | a bank pin's state is read from the capture register, which no state write changes |
| Digital.ResetState | api/src/lockbox.c:248-256 | reset is idempotent; it leaves every bank pin an input with output 0, every LED off and the loopback off, and does not touch the capture registers |
| Digital.Housekeeping.DpinReset | api/src/lockbox.c:248-256 | returns RP_OK and leaves the registers as `Reset` describes |
| Digital.Housekeeping.DpinSetDirection | api/src/lockbox.c:258-276 | status and registers are those of `SetDirection` on the old registers |
| Digital.Housekeeping.DpinGetDirection | api/src/lockbox.c:278-292 | returns RP_OK and the direction the registers hold for the pin |
| Digital.Housekeeping.DpinSetState | api/src/lockbox.c:294-317 | status and registers are those of `SetState`, with the direction check first |
| Digital.Housekeeping.DpinGetState | api/src/lockbox.c:319-333 | returns RP_OK and the state read from led_control or the capture register |
| Digital.Housekeeping.EnableDigitalLoop | api/src/lockbox.c:340-343 | the loopback register holds 1 or 0 as enabled; nothing else changes |
| Analog.UnpackOut | api/src/lockbox.c:463 | a DAC word reads back as a code of at most ANALOG_OUT_MASK |
| Analog.UnpackIn | api/src/lockbox.c:420 | an ADC word reads as a code of at most ANALOG_IN_MAX_VAL_INTEGER |
| Analog.PackOutRoundTrip | api/src/lockbox.c:443-465 | every accepted output code is stored in bits 16..23 and read back unchanged |
| Analog.ConstantsAgree | api/src/analog_mixed_signals.h:26-46 | the header's constants are consistent: accepted codes fit the mask, the shifted mask fits 32 bits, both voltage ranges are non-empty, the struct fits the mapped size |
| Analog.SetOutputRawOutcome | api/src/lockbox.c:443-452 | a raw output write succeeds exactly for index < 4 and code <= 156; RP_EPN or RP_EOOR write nothing; success changes only the addressed DAC word |
| Analog.OutputRawRoundTrip | api/src/lockbox.c:443-465 | after a successful raw write the output reads back the code written, and the other outputs read as before |
| Analog.ResetOutputsReadZero | api/src/lockbox.c:436-441 | after the output reset every output reads raw 0 |
| Analog.ApinReadRawDispatch | api/src/lockbox.c:365-374 | pins 0..3 read output bank index i, pins 4..7 read input bank index pin - 4, anything higher is RP_EPN |
| Analog.ApinWriteRawHidesRefusal | api/src/lockbox.c:387-396 | as written: writing code 157 to RP_AOUT0 reports RP_OK although the output bank refused it and nothing changed |
| Analog.ApinWriteRawCheckedReportsWrite | api/src/lockbox.c:387-396 | with the bank's status passed on, RP_OK holds exactly for an output pin and an accepted code, and the pin then reads back the code |
| Analog.AOpinGetRange | api/src/lockbox.c:474-478 | the output range, for any index, is a non-empty interval |
| Analog.ApinGetRange | api/src/lockbox.c:398-409 | RP_OK exactly for pins up to RP_AIN3; outputs get the output range, inputs (0.0, 7.0) |
| Analog.AnalogMixedSignals.AIpinGetValueRaw | api/src/lockbox.c:416-422 | RP_EPN for an index from 4 on, otherwise the ADC word under ANALOG_IN_MASK |
| Analog.AnalogMixedSignals.AIpinGetValue | api/src/lockbox.c:424-429 | the raw reading with its status, scaled to volts |
| Analog.AnalogMixedSignals.AOpinSetValueRaw | api/src/lockbox.c:443-452 | status and DAC words are those of `SetOutputRaw` |
| Analog.AnalogMixedSignals.AOpinSetValue | api/src/lockbox.c:454-457 | the converted code is written as by `AOpinSetValueRaw` |
| Analog.AnalogMixedSignals.AOpinGetValueRaw | api/src/lockbox.c:459-465 | RP_EPN for an index from 4 on, otherwise the code unpacked from the DAC word |
| Analog.AnalogMixedSignals.AOpinGetValue | api/src/lockbox.c:467-472 | the raw reading with its status, scaled to volts |
| Analog.AnalogMixedSignals.AOpinReset | api/src/lockbox.c:436-441 | returns RP_OK with all four DAC words holding the packed code 0 |
| Analog.AnalogMixedSignals.ApinReset | api/src/lockbox.c:350-352 | the same as the output reset |
| Analog.AnalogMixedSignals.ApinGetValueRaw | api/src/lockbox.c:365-374 | status and value of `ApinReadRaw`: the bank's value with RP_OK, or RP_EPN |
| Analog.AnalogMixedSignals.ApinGetValue | api/src/lockbox.c:354-363 | RP_OK with the scaled bank value for pins 0..7, RP_EPN above |
| Analog.AnalogMixedSignals.ApinSetValueRaw | api/src/lockbox.c:387-396 | as written: the output bank's status is dropped and RP_OK returned for any output pin |
| Analog.AnalogMixedSignals.ApinSetValueRawChecked | api/src/lockbox.c:387-396 | corrected: the output bank's status is returned |
| Analog.AnalogMixedSignals.ApinSetValue | api/src/lockbox.c:376-385 | as written: the converted code goes to the output bank and its status is dropped |
| Pid.WordOf | api/src/pid.h:35-70 | every (parameter, instance) register lies between the reserved words and the end of the struct |
| Pid.LayoutIsInjective | api/src/pid.h:35-70 | no two (parameter, instance) pairs share a register word |
| Pid.MaskWidths | api/src/pid.h:72-79 | each mask has the width its comment gives; the relock-input mask holds exactly the four analog inputs |
| Pid.BaseSizeMissesRegisters | api/src/pid.h:32 | as written: PID_BASE_SIZE 0x4C ends at PID_22's Kd register, so the relock minimum, maximum, step size and input registers of every instance lie at or past it |
| Pid.BlockSizeCoversRegisters | api/src/pid.h:35-70 | corrected: every register lies inside the struct size 0x90 |
| Pid.ConfBitIsInjective | api/src/pid.c:216-367 | different (flag, instance) pairs use different conf bits |
| Pid.FlagPlacement | api/src/pid.c:216-367 | every flag bit lies inside PID_CONF_MASK and different pairs' bits are disjoint |
| Pid.FlagSetThenGet | api/src/pid.c:216-244 | a flag setter on a known instance succeeds, and the getter then returns the value written |
| Pid.FlagSetterTouchesOneBit | api/src/pid.c:216-235 | a flag setter changes no word but conf and no bit of conf but its own |
| Pid.FlagIsolation | api/src/pid.c:216-367 | a flag setter leaves every other flag of every instance reading as before |
| Pid.SetFieldThenGet | api/src/pid.c:194-214 | a value setter succeeds on a known instance, and the getter returns the code cut to the register's mask |
| Pid.SetFieldIsolation | api/src/pid.c:194-214 | a value setter leaves conf and every other register as it was |
| Pid.UnknownInstanceRefused | api/src/pid.c:194-244 | every setter and getter refuses an unknown instance with RP_EPN and writes nothing |
| Pid.Clamp | api/src/pid.c:115-116 | the clamped code is at most the mask and at most the code, and is one of the two |
| Pid.GainSignAndClamp | api/src/pid.c:106-125 | a negative gain is RP_EIPV with no write, for any instance; a non-negative one is stored clamped to the mask and read back so |
| Pid.SetpointChannel | api/src/pid.c:53-60 | exactly the four instances have an input channel |
| Pid.SetpointRouting | api/src/pid.c:48-104 | PID_11 and PID_21 convert setpoints with channel A's calibration, PID_12 and PID_22 with channel B's, both writing and reading |
| Pid.RelockInputRoundTrip | api/src/pid.c:485-516 | AIN0..AIN3 are stored and read back unchanged; a pin above RP_AIN3 is RP_EPN with no write; the getter always returns one of AIN0..AIN3 |
| Pid.PidRegisters.SetFlagBit | api/src/pid.c:216-235 | status and block are those of `SetFlag` on the old block |
| Pid.PidRegisters.GetFlagBit | api/src/pid.c:236-244 | returns the reading of `GetFlag` |
| Pid.PidRegisters.SetValue | api/src/pid.c:194-203 | status and block are those of `SetField` |
| Pid.PidRegisters.GetValue | api/src/pid.c:205-214 | returns the reading of `GetField` |
| Pid.PidRegisters.SetPIDSetpoint | api/src/pid.c:48-69 | status and block are those of `SetSetpoint` |
| Pid.PidRegisters.GetPIDSetpoint | api/src/pid.c:71-104 | returns the reading of `GetSetpoint` |
| Pid.PidRegisters.SetPIDGain | api/src/pid.c:106-125 | status and block are those of `SetGain` |
| Pid.PidRegisters.GetScaled | api/src/pid.c:127-148 | returns the masked register, converted by the getter's scaling |
| Pid.PidRegisters.SetPIDKd | api/src/pid.c:194-203 | stores Kd under PID_KD_MASK, as `SetField` |
| Pid.PidRegisters.GetPIDKd | api/src/pid.c:205-214 | returns the reading of `GetField` for Kd, which never exceeds PID_KD_MASK |
| Pid.PidRegisters.SetRelockLimit | api/src/pid.c:414-460 | stores the converted relock minimum or maximum under PID_RELOCK_MASK |
| Pid.PidRegisters.SetPIDRelockInput | api/src/pid.c:485-496 | status and block are those of `SetRelockInput` |
| Pid.GetRelockInputInRange | api/src/pid.c:497-516 | the getter succeeds exactly for a known instance, and then reports one of AIN0..AIN3 whatever the field holds |
| Pid.PidRegisters.GetPIDRelockInput | api/src/pid.c:497-516 | returns the reading of `GetRelockInput`; on RP_OK the pin is one of AIN0..AIN3 |
| Snapshot.SaveIndexFinds | api/src/lockbox.c:995-1025 | every saved setting sits in the save order at its SaveIndex |
| Snapshot.SaveOrderIsIndexed | api/src/lockbox.c:995-1025 | every position of the save order holds a saved setting whose SaveIndex is that position |
| Snapshot.SaveIndexIsInjective | api/src/lockbox.c:995-1025 | two saved settings at the same position are the same setting |
| Snapshot.SaveRecord | api/src/lockbox.c:993-1025 | the record carries the version and, for every saved setting, its current value |
| Snapshot.CallFor | api/src/lockbox.c:1073-1086 | the call restoring a setting targets it and leaves the recorded value; the generator flags become enable or disable calls |
| Snapshot.LoadCallsFollowSaveOrder | api/src/lockbox.c:1051-1087 | load issues its calls in the save order: call k restores the setting saved at position k, with the recorded value |
| Snapshot.LoadCallsAreDistinct | api/src/lockbox.c:1051-1087 | no two of load's calls change the same setting |
| Pid.SubnormalValue | api/src/lockbox.c:852-853 | the float whose bits pid_GetPIDKd stores for a code below 2^23 is a non-negative number below 1 |
| Pid.FloatToCode | api/src/lockbox.c:849-850 | the float-to-uint32_t conversion in rp_PIDSetKd truncates toward zero |
| Pid.KdSaveLoadAsWrittenClears | api/src/lockbox.c:849-853 | as written: after Kd is saved through rp_PIDGetKd and restored through rp_PIDSetKd, the restored block reads Kd 0 whatever code was saved |
| Pid.KdSaveLoadAsWrittenLosesOne | api/src/lockbox.c:999 | as written: a saved Kd code of 1 in PID_11 is not read back after the round trip |
| Pid.KdSaveLoadRoundTrip | api/src/pid.c:194-214 | corrected: passing the saved Kd as the integer code of pid_GetPIDKd to pid_SetPIDKd restores exactly the saved code in any block |
| Snapshot.LoadRestoresSaved | api/src/lockbox.c:992-1089 | round trip: loading a record of the right version, on top of any settings, leaves exactly the settings it was saved from |
| Snapshot.Lockbox.GatherConfig | api/src/lockbox.c:993-1025 | the getter loops produce `SaveRecord` of the current settings and change nothing |
| Snapshot.Lockbox.SaveLockboxConfig | api/src/lockbox.c:992-1035 | RP_EOCF with the file unchanged when it cannot be opened; otherwise RP_OK with the file holding the record of the current settings; no setting changes |
| Snapshot.Lockbox.RestorePid | api/src/lockbox.c:1052-1070 | one PID round issues its 19 calls in order and restores exactly that PID's settings |
| Snapshot.Lockbox.RestoreChannel | api/src/lockbox.c:1073-1086 | one channel round issues its 8 calls in order and restores exactly that channel's settings |
| Snapshot.Lockbox.RestorePids | api/src/lockbox.c:1051-1071 | the PID loop restores every PID setting and no channel setting |
| Snapshot.Lockbox.RestoreChannels | api/src/lockbox.c:1072-1087 | the channel loop restores every channel setting and no PID setting |
| Snapshot.Lockbox.LoadLockboxConfig | api/src/lockbox.c:1037-1089 | RP_EOCF for a file that cannot be opened and RP_EICV for another version, both before any setter call; otherwise RP_OK after the calls of `LoadCalls`, which leave the recorded settings |
| ScpiPid.ResultOf | scpi-server/src/pid.c:22-27 | a handler reports SCPI_RES_OK exactly for RP_OK |
| ScpiPid.ParsePidArgv | scpi-server/src/pid.c:40-62 | RP_OK exactly for input and output in 1..2, else RP_EOOR with no PID; an accepted header names the instance whose header numbers it is |
| ScpiPid.ParsePidArgvReachesEveryPid | scpi-server/src/pid.c:52-59 | each of the four instances is named by its own header numbers |
| ScpiPid.ParsePidArgvIsInjective | scpi-server/src/pid.c:52-59 | two accepted headers naming the same instance are the same header |
| ScpiPid.ChoiceValue | scpi-server/src/pid.c:761-765 | a name is accepted exactly when the table has an entry with that name, and yields the tag of the first such entry |
| ScpiPid.ChoiceToName | scpi-server/src/pid.c:800-803 | a tag has a name exactly when the table has an entry with that tag, and yields the name of the first such entry |
| ScpiPid.ChoiceNameRoundTrip | scpi-server/src/pid.c:800-803 | in a table whose tags are distinct, the name found for an accepted name's tag is that name again |
| ScpiPid.AinNamesRoundTrip | scpi-server/src/pid.c:744-750 | exactly the pins 4..7 have a name, and each name selects its pin again |
| ScpiPid.AinChoicesRoundTrip | scpi-server/src/pid.c:744-750 | every accepted name selects a pin in 4..7 whose name it is |
| ScpiPid.FlagCommandEffect | scpi-server/src/pid.c:324-350 | SCPI_RES_OK exactly when header and parameter parse; a failure writes nothing; success sets the flag as the API setter does |
| ScpiPid.FlagQueryResponse | scpi-server/src/pid.c:352-375 | SCPI_RES_OK exactly when the header parses; the reply is "ON" exactly when the flag is set and "OFF" exactly when it is clear; a failure replies nothing |
| ScpiPid.FlagCommandThenQuery | scpi-server/src/pid.c:324-375 | a flag command followed by its query replies with the mnemonic of the value sent |
| ScpiPid.RelockCommandEffect | scpi-server/src/pid.c:752-778 | SCPI_RES_OK exactly when the header parses and the parameter is a table name; a failure writes nothing; on success the named pin is one of AIN0..AIN3 and the block is pid_SetRelockInput's for that pin and instance |
| ScpiPid.RelockQueryResponse | scpi-server/src/pid.c:781-809 | SCPI_RES_OK exactly when the header parses; the reply is the table name of the stored pin, so the missing-name refusal never happens |
| ScpiPid.RelockCommandThenQuery | scpi-server/src/pid.c:752-809 | a relock-input command followed by its query replies with the name sent |
| ScpiPid.FlagCommand | scpi-server/src/pid.c:324-350 | result and block are those of `FlagCommandEffect` on the old block |
| ScpiPid.FlagQuery | scpi-server/src/pid.c:352-375 | result and reply are those of `FlagQueryResponse` |
| ScpiPid.RelockInputCommand | scpi-server/src/pid.c:752-778 | result and block are those of `RelockCommandEffect` |
| ScpiPid.RelockInputQuery | scpi-server/src/pid.c:781-809 | result and reply are those of `RelockQueryResponse` |
| ScpiPid.SaveConfigCommand | scpi-server/src/pid.c:21-28 | SCPI_RES_OK exactly when the file could be written, which then holds the current settings' record |
| ScpiPid.LoadConfigCommand | scpi-server/src/pid.c:30-37 | SCPI_RES_OK exactly when the file holds a record of this version, whose settings are then restored; otherwise nothing changes |

## Left out

- Floating point: every float conversion is a function parameter of the operation that uses it. This covers volts to counts, the gain rounding, the analog scaling and the calibration of the setpoint channels. Rounding, NaN and overflow of those conversions are not modelled.
- The helpers cmn_SetValue, cmn_GetValue, cmn_SetBits, cmn_UnsetBits and cmn_AreBitsSet live in common.c, which is not part of this model. Their assumed behaviour is written out, but the range checks of the real helpers are not. As a consequence, the model stores any code cut to its mask rather than refusing codes wider than the mask.
- Pid.RelockInputRoundTrip: a pin below RP_AIN0 is stored as `pin - RP_AIN0` wrapped to 32 bits, which reads back as AIN0..AIN3 under the assumed cmn_SetValue. Whether the real helper refuses that code depends on common.c, so no claim is made about output pins.
- Analog.AnalogMixedSignals.AIpinGetValue: when the raw read fails, the C function still scales an uninitialised value into `*value`. The model returns no value in that case. The same holds for AOpinGetValue.
- Snapshot: the getters and setters that forward to parts of the library not in this model are modelled as an abstract parameter store. That covers Kii, Kg, enable, lock-status output, external reset, limits and generator. A setter stores the value it is given, so its own conversion, quantisation and failures are not modelled. The PID setters modelled in `Pid` are not wired into the store.
- Snapshot.Lockbox.LoadLockboxConfig and SaveLockboxConfig ignore the statuses of the getters and setters they call, as the C code does, so no setter failure is modelled.
- Snapshot.Lockbox.SaveLockboxConfig: the byte layout written by fwrite and the fclose result are not modelled. Whether the file opens for writing is the `writable` parameter.
- Snapshot.Lockbox.LoadLockboxConfig: the fread result is ignored by the code. The model treats the file as either a complete record or nothing, so a short or corrupt file is not modelled.
- LOCKBOX_CONFIG_VERSION and CONFIG_FILE_PATH are defined in lockbox.h, which is not part of this model. The version is a parameter.
- The 19 straight-line setter and getter calls per PID, and the 8 per channel, are modelled as loops over the record's field list in the same order.
- Digital: pins are the subset type 0..23 of `rp_dpin_t`. The C code does not bound-check the N bank, so a number past RP_DIO7_N is not modelled.
- ScpiPid: the SCPI parser library is not part of this model. SCPI_CommandNumbers, SCPI_ParamBool, SCPI_ParamChoice and SCPI_ChoiceToName are modelled by their results: a header number, a boolean or a name, or a missing parameter. Mnemonic matching is exact string equality, so SCPI's case-insensitive and short-form matching is not modelled.
- ScpiPid: the numeric SCPI handlers are not modelled. These are setpoint, Kp, Ki, Kd, the relock step size, minimum and maximum, and their queries. They follow the same parse-then-call shape as the flag handlers, and the API operations they call are modelled in `Pid`.
- Logging (RP_LOG), rp_GetError, memory mapping (pid_Init, ams_Init) and the register read/write primitives are not modelled. Registers are plain fields and arrays.
- rp_PIDSetKd takes a float and passes it to pid_SetPIDKd, which takes an unsigned integer. Pid.PidRegisters.SetPIDKd takes the integer code; the conversion itself is modelled only for the save/load round trip (Pid.FloatToCode).
- Snapshot.LoadRestoresSaved: the store keeps Kd as the value it was saved as, which is the corrected behaviour of the Kd finding below. As written, rp_PIDGetKd hands a float pointer to pid_GetPIDKd, which stores the 14-bit code's bits in it, so the saved float is a subnormal below 1 and rp_PIDSetKd restores it as 0. The as-written path is modelled on the register block in Pid.KdSaveLoadAsWrittenClears, not in the store. The type of the record's pid_kd array is declared in lockbox.h, which is not part of this model; the float is what rp_PIDGetKd's signature implies.

## Findings

| source | as written | input that shows it | evidently intended | confidence | as-written member | corrected member |
|---|---|---|---|---|---|---|
| api/src/lockbox.c:387-396 | rp_ApinSetValueRaw (and rp_ApinSetValue) drops the status of rp_AOpinSetValueRaw and returns RP_OK | pin RP_AOUT0, raw value 157: the output bank refuses it with RP_EOOR and writes nothing, yet the caller gets RP_OK | return the output bank's status, so RP_OK means the value was written | high; not executed | Analog.ApinWriteRawHidesRefusal | Analog.ApinWriteRawCheckedReportsWrite |
| api/src/pid.h:32 | PID_BASE_SIZE is 0x4C, which ends at the Kd register of PID_22 | the relock registers (byte offsets 0x50 to 0x8C of pid_control_t) lie past the mapped size | map the whole struct, 0x90 bytes | medium; not executed (the mapping may be rounded up to a page on the device) | Pid.BaseSizeMissesRegisters | Pid.BlockSizeCoversRegisters |
| api/src/lockbox.c:852-853 | rp_PIDGetKd passes its float pointer to pid_GetPIDKd, which stores the integer Kd code's bits there; rp_LoadLockboxConfig (line 1055) hands that float to rp_PIDSetKd, which converts its value back to an integer | PID_11 with Kd code 1: the saved float is 2^-149, which converts to 0, so Kd reads 0 after the load | save and restore Kd as the integer code, so the load reads back what was saved | medium; not executed (depends on pid_kd being float, as rp_PIDGetKd's signature implies) | Pid.KdSaveLoadAsWrittenClears | Pid.KdSaveLoadRoundTrip |
