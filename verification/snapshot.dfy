/** Saving the lockbox settings to the configuration file and loading them
    back (rp_SaveLockboxConfig / rp_LoadLockboxConfig in api/src/lockbox.c).

    The settings are read and written through the API's getters and setters,
    most of which forward to parts of the library that are not part of this
    model. The model therefore treats them as an abstract parameter store: a
    map from each saved parameter to its value. A getter reads the map; a
    setter call is logged and stores the value it is given. The configuration
    file holds at most one record; `None` stands for a file that cannot be
    opened for reading. */
module Snapshot {
  import opened Common

  /** The per-PID fields of the saved record, in the order the record lists them. */
  datatype PidField =
    | Setpoint | Kp | Ki | Kd | Kii | Kg
    | IntReset | Inverted | ResetWhenRailed | Hold | RelockEnabled | Enabled
    | RelockStepsize | RelockMinimum | RelockMaximum | RelockInput
    | LsoEnabled | ExtResetEnabled | ExtResetInput

  /** The per-channel fields of the saved record, in the order the record lists them. */
  datatype ChannelField =
    | LimitMin | LimitMax | GenEnabled | GenPOffsetEnabled
    | GenAmp | GenOffset | GenFreq | GenWaveform

  const PID_COUNT: nat := 4
  const CHANNEL_COUNT: nat := 2

  const PID_FIELDS: seq<PidField> :=
    [Setpoint, Kp, Ki, Kd, Kii, Kg,
     IntReset, Inverted, ResetWhenRailed, Hold, RelockEnabled, Enabled,
     RelockStepsize, RelockMinimum, RelockMaximum, RelockInput,
     LsoEnabled, ExtResetEnabled, ExtResetInput]

  const CHANNEL_FIELDS: seq<ChannelField> :=
    [LimitMin, LimitMax, GenEnabled, GenPOffsetEnabled,
     GenAmp, GenOffset, GenFreq, GenWaveform]

  /** One saved setting: a field of one PID controller or of one output channel. */
  datatype Param =
    | PidParam(pid: nat, pidField: PidField)
    | ChannelParam(channel: nat, channelField: ChannelField)

  /** The C types of the record's fields: float, bool, or an enumeration
      (a pin number or a waveform). */
  datatype Value = Real(r: real) | Bool(b: bool) | Int(i: int)

  datatype Kind = RealKind | BoolKind | IntKind

  function PidFieldKind(f: PidField): Kind {
    match f
    case IntReset | Inverted | ResetWhenRailed | Hold | RelockEnabled | Enabled
      | LsoEnabled | ExtResetEnabled => BoolKind
    case RelockInput | ExtResetInput => IntKind
    case _ => RealKind
  }

  function ChannelFieldKind(f: ChannelField): Kind {
    match f
    case GenEnabled | GenPOffsetEnabled => BoolKind
    case GenWaveform => IntKind
    case _ => RealKind
  }

  function KindOf(p: Param): Kind {
    match p
    case PidParam(_, f) => PidFieldKind(f)
    case ChannelParam(_, f) => ChannelFieldKind(f)
  }

  predicate HasKind(v: Value, k: Kind) {
    match k
    case RealKind => v.Real?
    case BoolKind => v.Bool?
    case IntKind => v.Int?
  }

  /** Position of a field inside its block of the record. */
  function PidFieldIndex(f: PidField): (k: nat)
    ensures k < |PID_FIELDS| && PID_FIELDS[k] == f
  {
    match f
    case Setpoint => 0 case Kp => 1 case Ki => 2 case Kd => 3 case Kii => 4
    case Kg => 5 case IntReset => 6 case Inverted => 7 case ResetWhenRailed => 8
    case Hold => 9 case RelockEnabled => 10 case Enabled => 11
    case RelockStepsize => 12 case RelockMinimum => 13 case RelockMaximum => 14
    case RelockInput => 15 case LsoEnabled => 16 case ExtResetEnabled => 17
    case ExtResetInput => 18
  }

  function ChannelFieldIndex(f: ChannelField): (k: nat)
    ensures k < |CHANNEL_FIELDS| && CHANNEL_FIELDS[k] == f
  {
    match f
    case LimitMin => 0 case LimitMax => 1 case GenEnabled => 2
    case GenPOffsetEnabled => 3 case GenAmp => 4 case GenOffset => 5
    case GenFreq => 6 case GenWaveform => 7
  }

  /** The number of settings the record holds: 19 per PID, 8 per channel. */
  const PID_PART: nat := PID_COUNT * |PID_FIELDS|
  const RECORD_SIZE: nat := PID_PART + CHANNEL_COUNT * |CHANNEL_FIELDS|

  /** The setting at position k of the order in which rp_SaveLockboxConfig
      reads them: for each PID in turn its 19 fields, then for each channel
      in turn its 8 fields. */
  function ParamAt(k: nat): Param
    requires k < RECORD_SIZE
  {
    if k < PID_PART then PidParam(k / 19, PID_FIELDS[k % 19])
    else ChannelParam((k - PID_PART) / 8, CHANNEL_FIELDS[(k - PID_PART) % 8])
  }

  /** The settings the record holds: the PIDs 0..3 and the channels 0..1. */
  predicate IsSaved(p: Param) {
    match p
    case PidParam(pid, _) => pid < PID_COUNT
    case ChannelParam(ch, _) => ch < CHANNEL_COUNT
  }

  /** Where a saved setting sits in the save order. */
  function SaveIndex(p: Param): (k: nat)
    requires IsSaved(p)
    ensures k < RECORD_SIZE
  {
    match p
    case PidParam(pid, f) => 19 * pid + PidFieldIndex(f)
    case ChannelParam(ch, f) => PID_PART + 8 * ch + ChannelFieldIndex(f)
  }

  /** Every field's block position picks that field out of the block. */
  lemma PidFieldPositions(j: nat)
    requires j < |PID_FIELDS|
    ensures PidFieldIndex(PID_FIELDS[j]) == j
  {
    if j < 10 {
      assert j in {0, 1, 2, 3, 4, 5, 6, 7, 8, 9};
    } else {
      assert j in {10, 11, 12, 13, 14, 15, 16, 17, 18};
    }
  }

  lemma ChannelFieldPositions(j: nat)
    requires j < |CHANNEL_FIELDS|
    ensures ChannelFieldIndex(CHANNEL_FIELDS[j]) == j
  {
    assert j in {0, 1, 2, 3, 4, 5, 6, 7};
  }

  /** A saved setting is found in the save order at its SaveIndex. */
  lemma SaveIndexFinds(p: Param)
    requires IsSaved(p)
    ensures ParamAt(SaveIndex(p)) == p
  {
    match p
    case PidParam(pid, f) =>
      var k := 19 * pid + PidFieldIndex(f);
      assert k / 19 == pid && k % 19 == PidFieldIndex(f);
    case ChannelParam(ch, f) =>
      var k := 8 * ch + ChannelFieldIndex(f);
      assert k / 8 == ch && k % 8 == ChannelFieldIndex(f);
  }

  /** Every position of the save order holds a saved setting whose SaveIndex
      is that position. */
  lemma SaveOrderIsIndexed(k: nat)
    requires k < RECORD_SIZE
    ensures IsSaved(ParamAt(k)) && SaveIndex(ParamAt(k)) == k
  {
    if k < PID_PART {
      PidFieldPositions(k % 19);
    } else {
      ChannelFieldPositions((k - PID_PART) % 8);
    }
  }

  /** Two saved settings with the same SaveIndex are the same setting. */
  lemma SaveIndexIsInjective(p: Param, q: Param)
    requires IsSaved(p) && IsSaved(q) && SaveIndex(p) == SaveIndex(q)
    ensures p == q
  {
    SaveIndexFinds(p);
    SaveIndexFinds(q);
  }

  /** Adding the setting at position n to the settings before n gives the
      settings before n + 1. */
  lemma SavedBelowStep(p: Param, n: nat)
    requires IsSaved(p) && SaveIndex(p) == n
    ensures forall q :: IsSaved(q) && SaveIndex(q) < n + 1 <==> q == p || (IsSaved(q) && SaveIndex(q) < n)
  {
    forall q | IsSaved(q) && SaveIndex(q) == n
      ensures q == p
    {
      SaveIndexIsInjective(p, q);
    }
  }

  /** A complete record: every saved setting, each with a value of its C type. */
  ghost predicate Complete(values: map<Param, Value>) {
    (forall p :: p in values <==> IsSaved(p)) &&
    (forall p :: p in values ==> HasKind(values[p], KindOf(p)))
  }

  /** The contents of the configuration file: the version it was written
      with and the settings. */
  datatype ConfigRecord = ConfigRecord(version: int, values: map<Param, Value>)

  /** The record rp_SaveLockboxConfig assembles from the current settings. */
  function SaveRecord(values: map<Param, Value>, version: int): (rec: ConfigRecord)
    requires Complete(values)
    ensures rec.version == version
    ensures forall p :: IsSaved(p) ==> p in rec.values && rec.values[p] == values[p]
  {
    ConfigRecord(version, values)
  }

  /** A setter call rp_LoadLockboxConfig issues. The generator's output and
      its offset are switched by an enable or a disable call rather than by a
      setter taking a flag. */
  datatype Call =
    | Set(p: Param, v: Value)
    | GenOutEnable(ch: nat) | GenOutDisable(ch: nat)
    | GenPOffsetEnable(ch: nat) | GenPOffsetDisable(ch: nat)

  /** The setting a call changes. */
  function Target(c: Call): Param {
    match c
    case Set(p, _) => p
    case GenOutEnable(ch) => ChannelParam(ch, GenEnabled)
    case GenOutDisable(ch) => ChannelParam(ch, GenEnabled)
    case GenPOffsetEnable(ch) => ChannelParam(ch, GenPOffsetEnabled)
    case GenPOffsetDisable(ch) => ChannelParam(ch, GenPOffsetEnabled)
  }

  /** The value a call leaves in the setting it changes. */
  function Effect(c: Call): Value {
    match c
    case Set(_, v) => v
    case GenOutEnable(_) => Bool(true)
    case GenOutDisable(_) => Bool(false)
    case GenPOffsetEnable(_) => Bool(true)
    case GenPOffsetDisable(_) => Bool(false)
  }

  /** The call that restores one saved setting: the generator flags become
      enable or disable calls, every other field its setter. */
  function CallFor(p: Param, v: Value): (c: Call)
    ensures Target(c) == p
    ensures v.Bool? ==> Effect(c) == v
    ensures !p.ChannelParam? || p.channelField !in {GenEnabled, GenPOffsetEnabled} ==> Effect(c) == v
    ensures HasKind(v, KindOf(p)) ==> HasKind(Effect(c), KindOf(p))
  {
    match p
    case ChannelParam(ch, GenEnabled) =>
      if v.Bool? && v.b then GenOutEnable(ch) else GenOutDisable(ch)
    case ChannelParam(ch, GenPOffsetEnabled) =>
      if v.Bool? && v.b then GenPOffsetEnable(ch) else GenPOffsetDisable(ch)
    case _ => Set(p, v)
  }

  /** The calls the body of the PID loop of rp_LoadLockboxConfig issues for
      PID `pid`, up to (not including) field j. */
  function PidFieldCalls(rec: ConfigRecord, pid: nat, j: nat): (cs: seq<Call>)
    requires Complete(rec.values) && pid < PID_COUNT && j <= |PID_FIELDS|
    ensures |cs| == j
  {
    if j == 0 then []
    else
      var p := PidParam(pid, PID_FIELDS[j - 1]);
      PidFieldCalls(rec, pid, j - 1) + [CallFor(p, rec.values[p])]
  }

  /** The calls of the first i rounds of the PID loop. */
  function PidCalls(rec: ConfigRecord, i: nat): (cs: seq<Call>)
    requires Complete(rec.values) && i <= PID_COUNT
    ensures |cs| == 19 * i
  {
    if i == 0 then [] else PidCalls(rec, i - 1) + PidFieldCalls(rec, i - 1, |PID_FIELDS|)
  }

  /** The calls the body of the channel loop issues for channel `ch`, up to
      (not including) field j. */
  function ChannelFieldCalls(rec: ConfigRecord, ch: nat, j: nat): (cs: seq<Call>)
    requires Complete(rec.values) && ch < CHANNEL_COUNT && j <= |CHANNEL_FIELDS|
    ensures |cs| == j
  {
    if j == 0 then []
    else
      var p := ChannelParam(ch, CHANNEL_FIELDS[j - 1]);
      ChannelFieldCalls(rec, ch, j - 1) + [CallFor(p, rec.values[p])]
  }

  /** The calls of the first c rounds of the channel loop. */
  function ChannelCalls(rec: ConfigRecord, c: nat): (cs: seq<Call>)
    requires Complete(rec.values) && c <= CHANNEL_COUNT
    ensures |cs| == 8 * c
  {
    if c == 0 then [] else ChannelCalls(rec, c - 1) + ChannelFieldCalls(rec, c - 1, |CHANNEL_FIELDS|)
  }

  /** All the calls rp_LoadLockboxConfig issues for a record of the right
      version: the PID loop's, then the channel loop's. */
  function LoadCalls(rec: ConfigRecord): (cs: seq<Call>)
    requires Complete(rec.values)
  {
    PidCalls(rec, PID_COUNT) + ChannelCalls(rec, CHANNEL_COUNT)
  }

  /** One more round of the PID loop extends its calls by that round's. */
  lemma PidCallsStep(rec: ConfigRecord, pid: nat)
    requires Complete(rec.values) && pid < PID_COUNT
    ensures PidCalls(rec, pid + 1) == PidCalls(rec, pid) + PidFieldCalls(rec, pid, |PID_FIELDS|)
  {
  }

  lemma ChannelCallsStep(rec: ConfigRecord, ch: nat)
    requires Complete(rec.values) && ch < CHANNEL_COUNT
    ensures ChannelCalls(rec, ch + 1) == ChannelCalls(rec, ch) + ChannelFieldCalls(rec, ch, |CHANNEL_FIELDS|)
  {
  }

  /** One more field extends a round's calls by that field's call. */
  lemma PidFieldCallsStep(rec: ConfigRecord, pid: nat, j: nat)
    requires Complete(rec.values) && pid < PID_COUNT && j < |PID_FIELDS|
    ensures PidFieldCalls(rec, pid, j + 1) ==
      PidFieldCalls(rec, pid, j) + [CallFor(PidParam(pid, PID_FIELDS[j]), rec.values[PidParam(pid, PID_FIELDS[j])])]
  {
  }

  lemma ChannelFieldCallsStep(rec: ConfigRecord, ch: nat, j: nat)
    requires Complete(rec.values) && ch < CHANNEL_COUNT && j < |CHANNEL_FIELDS|
    ensures ChannelFieldCalls(rec, ch, j + 1) ==
      ChannelFieldCalls(rec, ch, j) + [CallFor(ChannelParam(ch, CHANNEL_FIELDS[j]), rec.values[ChannelParam(ch, CHANNEL_FIELDS[j])])]
  {
  }

  lemma {:induction false} PidFieldCallsAt(rec: ConfigRecord, pid: nat, j: nat, m: nat)
    requires Complete(rec.values) && pid < PID_COUNT && m < j <= |PID_FIELDS|
    ensures PidFieldCalls(rec, pid, j)[m] == CallFor(PidParam(pid, PID_FIELDS[m]), rec.values[PidParam(pid, PID_FIELDS[m])])
  {
    if m < j - 1 {
      PidFieldCallsAt(rec, pid, j - 1, m);
    }
  }

  lemma {:induction false} PidCallsAt(rec: ConfigRecord, i: nat, k: nat)
    requires Complete(rec.values) && k < 19 * i && i <= PID_COUNT
    ensures IsSaved(Target(PidCalls(rec, i)[k])) && SaveIndex(Target(PidCalls(rec, i)[k])) == k
    ensures PidCalls(rec, i)[k] == CallFor(Target(PidCalls(rec, i)[k]), rec.values[Target(PidCalls(rec, i)[k])])
  {
    if k < 19 * (i - 1) {
      PidCallsAt(rec, i - 1, k);
    } else {
      var m := k - 19 * (i - 1);
      PidFieldCallsAt(rec, i - 1, |PID_FIELDS|, m);
      PidFieldPositions(m);
    }
  }

  lemma {:induction false} ChannelFieldCallsAt(rec: ConfigRecord, ch: nat, j: nat, m: nat)
    requires Complete(rec.values) && ch < CHANNEL_COUNT && m < j <= |CHANNEL_FIELDS|
    ensures ChannelFieldCalls(rec, ch, j)[m] ==
      CallFor(ChannelParam(ch, CHANNEL_FIELDS[m]), rec.values[ChannelParam(ch, CHANNEL_FIELDS[m])])
  {
    if m < j - 1 {
      ChannelFieldCallsAt(rec, ch, j - 1, m);
    }
  }

  lemma {:induction false} ChannelCallsAt(rec: ConfigRecord, c: nat, k: nat)
    requires Complete(rec.values) && k < 8 * c && c <= CHANNEL_COUNT
    ensures IsSaved(Target(ChannelCalls(rec, c)[k])) && SaveIndex(Target(ChannelCalls(rec, c)[k])) == PID_PART + k
    ensures ChannelCalls(rec, c)[k] == CallFor(Target(ChannelCalls(rec, c)[k]), rec.values[Target(ChannelCalls(rec, c)[k])])
  {
    if k < 8 * (c - 1) {
      ChannelCallsAt(rec, c - 1, k);
    } else {
      var m := k - 8 * (c - 1);
      ChannelFieldCallsAt(rec, c - 1, |CHANNEL_FIELDS|, m);
      ChannelFieldPositions(m);
    }
  }

  /** Load issues its calls in the save order: call k restores the setting
      whose SaveIndex is k, with the record's value for it. */
  lemma LoadCallsFollowSaveOrder(rec: ConfigRecord, k: nat)
    requires Complete(rec.values) && k < |LoadCalls(rec)|
    ensures IsSaved(Target(LoadCalls(rec)[k])) && SaveIndex(Target(LoadCalls(rec)[k])) == k
    ensures LoadCalls(rec)[k] == CallFor(Target(LoadCalls(rec)[k]), rec.values[Target(LoadCalls(rec)[k])])
  {
    if k < PID_PART {
      PidCallsAt(rec, PID_COUNT, k);
    } else {
      ChannelCallsAt(rec, CHANNEL_COUNT, k - PID_PART);
    }
  }

  /** The settings after a sequence of calls, the last call applied last. */
  function ApplyCalls(values: map<Param, Value>, cs: seq<Call>): map<Param, Value> {
    if cs == [] then values
    else
      var last := cs[|cs| - 1];
      ApplyCalls(values, cs[..|cs| - 1])[Target(last) := Effect(last)]
  }

  /** Applying one more call updates the setting it targets. */
  lemma ApplyOneMore(values: map<Param, Value>, cs: seq<Call>, c: Call)
    ensures ApplyCalls(values, cs + [c]) == ApplyCalls(values, cs)[Target(c) := Effect(c)]
  {
    assert (cs + [c])[..|cs|] == cs;
  }

  lemma AppendAssoc(a: seq<Call>, b: seq<Call>, c: seq<Call>)
    ensures a + (b + c) == a + b + c
  {
  }

  /** Each setting takes the value of the last call that targets it; the
      settings no call targets keep their values. Stated for calls with
      distinct targets, which is what the load issues. */
  lemma {:induction false} ApplyDistinctCalls(values: map<Param, Value>, cs: seq<Call>, k: nat, q: Param)
    requires forall a, b :: 0 <= a < b < |cs| ==> Target(cs[a]) != Target(cs[b])
    ensures k < |cs| ==>
      Target(cs[k]) in ApplyCalls(values, cs) && ApplyCalls(values, cs)[Target(cs[k])] == Effect(cs[k])
    ensures (forall a :: 0 <= a < |cs| ==> Target(cs[a]) != q) ==>
      (q in ApplyCalls(values, cs) <==> q in values) &&
      (q in values ==> ApplyCalls(values, cs)[q] == values[q])
  {
    if cs != [] {
      var n := |cs| - 1;
      var prefix := cs[..n];
      assert forall a :: 0 <= a < n ==> prefix[a] == cs[a];
      if k < n {
        ApplyDistinctCalls(values, prefix, k, q);
        assert Target(cs[k]) != Target(cs[n]);
      } else {
        ApplyDistinctCalls(values, prefix, n, q);
      }
    }
  }

  /** The load's calls change different settings, and only saved ones. */
  lemma LoadCallsAreDistinct(rec: ConfigRecord)
    requires Complete(rec.values)
    ensures forall a, b :: 0 <= a < b < |LoadCalls(rec)| ==> Target(LoadCalls(rec)[a]) != Target(LoadCalls(rec)[b])
  {
    forall a, b | 0 <= a < b < |LoadCalls(rec)|
      ensures Target(LoadCalls(rec)[a]) != Target(LoadCalls(rec)[b])
    {
      LoadCallsFollowSaveOrder(rec, a);
      LoadCallsFollowSaveOrder(rec, b);
    }
  }

  /** Round trip: loading a record of the right version, on top of any
      settings, leaves exactly the settings the record was saved from. */
  lemma {:induction false} LoadRestoresSaved(saved: map<Param, Value>, current: map<Param, Value>, version: int)
    requires Complete(saved) && Complete(current)
    ensures ApplyCalls(current, LoadCalls(SaveRecord(saved, version))) == saved
  {
    var rec := SaveRecord(saved, version);
    var cs := LoadCalls(rec);
    var after := ApplyCalls(current, cs);
    LoadCallsAreDistinct(rec);
    forall p | IsSaved(p)
      ensures p in after && after[p] == saved[p]
    {
      var k := SaveIndex(p);
      LoadCallsFollowSaveOrder(rec, k);
      SaveIndexIsInjective(p, Target(cs[k]));
      ApplyDistinctCalls(current, cs, k, p);
    }
    forall p | !IsSaved(p)
      ensures p !in after
    {
      forall a | 0 <= a < |cs|
        ensures Target(cs[a]) != p
      {
        LoadCallsFollowSaveOrder(rec, a);
      }
      ApplyDistinctCalls(current, cs, 0, p);
    }
  }

  /** Midway through the body of the PID loop for PID `pid`: its settings
      before field j hold the record's values, every other setting its value
      in `base`. */
  ghost predicate PidRestoredBelow(values: map<Param, Value>, base: map<Param, Value>, rec: ConfigRecord, pid: nat, j: nat) {
    forall p :: IsSaved(p) && p in values && p in base && p in rec.values ==>
      values[p] == if p.PidParam? && p.pid == pid && PidFieldIndex(p.pidField) < j then rec.values[p] else base[p]
  }

  /** The setter for field j of PID `pid` extends the restored settings by that field. */
  lemma PidRestoreStep(values: map<Param, Value>, base: map<Param, Value>, rec: ConfigRecord, pid: nat, j: nat)
    requires Complete(rec.values) && pid < PID_COUNT && j < |PID_FIELDS|
    requires PidRestoredBelow(values, base, rec, pid, j)
    ensures PidRestoredBelow(values[PidParam(pid, PID_FIELDS[j]) := rec.values[PidParam(pid, PID_FIELDS[j])]], base, rec, pid, j + 1)
  {
    PidFieldPositions(j);
  }

  /** Midway through the body of the channel loop for channel `ch`, as PidRestoredBelow. */
  ghost predicate ChannelRestoredBelow(values: map<Param, Value>, base: map<Param, Value>, rec: ConfigRecord, ch: nat, j: nat) {
    forall p :: IsSaved(p) && p in values && p in base && p in rec.values ==>
      values[p] == if p.ChannelParam? && p.channel == ch && ChannelFieldIndex(p.channelField) < j then rec.values[p] else base[p]
  }

  /** The call for field j of channel `ch` extends the restored settings by that field. */
  lemma ChannelRestoreStep(values: map<Param, Value>, base: map<Param, Value>, rec: ConfigRecord, ch: nat, j: nat)
    requires Complete(rec.values) && ch < CHANNEL_COUNT && j < |CHANNEL_FIELDS|
    requires ChannelRestoredBelow(values, base, rec, ch, j)
    ensures ChannelRestoredBelow(
      values[ChannelParam(ch, CHANNEL_FIELDS[j]) := Effect(CallFor(ChannelParam(ch, CHANNEL_FIELDS[j]), rec.values[ChannelParam(ch, CHANNEL_FIELDS[j])]))],
      base, rec, ch, j + 1)
  {
    ChannelFieldPositions(j);
  }

  /** The API's side of saving and loading: the current settings, the calls
      issued so far, and the configuration file. */
  class Lockbox {
    /** Every saved setting's current value. */
    var values: map<Param, Value>
    /** The setter calls issued so far, oldest first. */
    var calls: seq<Call>
    /** The configuration file's record, or None when it cannot be opened for reading. */
    var file: Option<ConfigRecord>

    /** The settings are complete and a file present holds a complete
        record; only rp_SaveLockboxConfig writes the file. */
    ghost predicate Valid()
      reads this
    {
      Complete(values) && (file.Some? ==> Complete(file.value.values))
    }

    constructor(initial: map<Param, Value>, stored: Option<ConfigRecord>)
      requires Complete(initial)
      requires stored.Some? ==> Complete(stored.value.values)
      ensures Valid()
      ensures values == initial && calls == [] && file == stored
    {
      values := initial;
      calls := [];
      file := stored;
    }

    /** One setter call: logged, and its value stored in its setting.
        The setters' own conversions and range checks are not part of this model. */
    method Issue(c: Call)
      requires Valid() && IsSaved(Target(c)) && HasKind(Effect(c), KindOf(Target(c)))
      modifies this
      ensures Valid()
      ensures values == old(values)[Target(c) := Effect(c)]
      ensures calls == old(calls) + [c]
      ensures file == old(file)
    {
      values := values[Target(c) := Effect(c)];
      calls := calls + [c];
    }

    /** The getter loops of rp_SaveLockboxConfig: the record of the current
        settings under the given version. */
    method GatherConfig(version: int) returns (config: ConfigRecord)
      requires Valid()
      ensures config == SaveRecord(values, version)
    {
      var gathered: map<Param, Value> := map[];
      var i := 0;
      while i < PID_COUNT
        invariant 0 <= i <= PID_COUNT
        invariant forall p :: p in gathered <==> IsSaved(p) && SaveIndex(p) < 19 * i
        invariant forall p :: p in gathered ==> gathered[p] == values[p]
      {
        var j := 0;
        while j < |PID_FIELDS|
          invariant 0 <= j <= |PID_FIELDS|
          invariant forall p :: p in gathered <==> IsSaved(p) && SaveIndex(p) < 19 * i + j
          invariant forall p :: p in gathered ==> gathered[p] == values[p]
        {
          var p := PidParam(i, PID_FIELDS[j]);
          PidFieldPositions(j);
          SavedBelowStep(p, 19 * i + j);
          gathered := gathered[p := values[p]];
          j := j + 1;
        }
        i := i + 1;
      }
      var ch := 0;
      while ch < CHANNEL_COUNT
        invariant 0 <= ch <= CHANNEL_COUNT
        invariant forall p :: p in gathered <==> IsSaved(p) && SaveIndex(p) < PID_PART + 8 * ch
        invariant forall p :: p in gathered ==> gathered[p] == values[p]
      {
        var j := 0;
        while j < |CHANNEL_FIELDS|
          invariant 0 <= j <= |CHANNEL_FIELDS|
          invariant forall p :: p in gathered <==> IsSaved(p) && SaveIndex(p) < PID_PART + 8 * ch + j
          invariant forall p :: p in gathered ==> gathered[p] == values[p]
        {
          var p := ChannelParam(ch, CHANNEL_FIELDS[j]);
          ChannelFieldPositions(j);
          SavedBelowStep(p, PID_PART + 8 * ch + j);
          gathered := gathered[p := values[p]];
          j := j + 1;
        }
        ch := ch + 1;
      }
      assert gathered == values;
      config := ConfigRecord(version, gathered);
    }

    /** rp_SaveLockboxConfig: gathers the record, then writes it when the
        file can be opened for writing (`writable`); otherwise RP_EOCF and
        the file is left alone. */
    method SaveLockboxConfig(version: int, writable: bool) returns (status: Status)
      requires Valid()
      modifies this
      ensures Valid()
      ensures values == old(values) && calls == old(calls)
      ensures !writable ==> status == EOCF && file == old(file)
      ensures writable ==> status == Ok && file == Some(SaveRecord(values, version))
    {
      var config := GatherConfig(version);
      if !writable {
        return EOCF;
      }
      file := Some(config);
      status := Ok;
    }

    /** One round of the PID loop of rp_LoadLockboxConfig: the 19 setters
        for PID `pid`, in the record's field order. */
    method RestorePid(config: ConfigRecord, pid: nat)
      requires Valid() && Complete(config.values) && pid < PID_COUNT
      modifies this
      ensures Valid() && file == old(file)
      ensures calls == old(calls) + PidFieldCalls(config, pid, |PID_FIELDS|)
      ensures forall p :: IsSaved(p) ==>
        values[p] == if p.PidParam? && p.pid == pid then config.values[p] else old(values)[p]
    {
      var j := 0;
      while j < |PID_FIELDS|
        invariant 0 <= j <= |PID_FIELDS|
        invariant Valid() && file == old(file)
        invariant calls == old(calls) + PidFieldCalls(config, pid, j)
        invariant PidRestoredBelow(values, old(values), config, pid, j)
      {
        var p := PidParam(pid, PID_FIELDS[j]);
        PidRestoreStep(values, old(values), config, pid, j);
        PidFieldCallsStep(config, pid, j);
        AppendAssoc(old(calls), PidFieldCalls(config, pid, j), [Set(p, config.values[p])]);
        Issue(Set(p, config.values[p]));
        j := j + 1;
      }
    }

    /** One round of the channel loop of rp_LoadLockboxConfig: the limits,
        the generator's output and offset switched on or off as recorded
        (the choice CallFor makes), then its amplitude, offset, frequency and
        waveform. */
    method RestoreChannel(config: ConfigRecord, ch: nat)
      requires Valid() && Complete(config.values) && ch < CHANNEL_COUNT
      modifies this
      ensures Valid() && file == old(file)
      ensures calls == old(calls) + ChannelFieldCalls(config, ch, |CHANNEL_FIELDS|)
      ensures forall p :: IsSaved(p) ==>
        values[p] == if p.ChannelParam? && p.channel == ch then config.values[p] else old(values)[p]
    {
      var j := 0;
      while j < |CHANNEL_FIELDS|
        invariant 0 <= j <= |CHANNEL_FIELDS|
        invariant Valid() && file == old(file)
        invariant calls == old(calls) + ChannelFieldCalls(config, ch, j)
        invariant ChannelRestoredBelow(values, old(values), config, ch, j)
      {
        var p := ChannelParam(ch, CHANNEL_FIELDS[j]);
        var c := CallFor(p, config.values[p]);
        ChannelRestoreStep(values, old(values), config, ch, j);
        ChannelFieldCallsStep(config, ch, j);
        AppendAssoc(old(calls), ChannelFieldCalls(config, ch, j), [c]);
        Issue(c);
        j := j + 1;
      }
    }

    /** The PID loop of rp_LoadLockboxConfig: every PID's settings restored, PID 0 first. */
    method RestorePids(config: ConfigRecord)
      requires Valid() && Complete(config.values)
      modifies this
      ensures Valid() && file == old(file)
      ensures calls == old(calls) + PidCalls(config, PID_COUNT)
      ensures forall p :: IsSaved(p) ==> values[p] == if p.PidParam? then config.values[p] else old(values)[p]
    {
      var i := 0;
      while i < PID_COUNT
        invariant 0 <= i <= PID_COUNT
        invariant Valid() && file == old(file)
        invariant calls == old(calls) + PidCalls(config, i)
        invariant forall p :: IsSaved(p) ==>
          values[p] == if p.PidParam? && p.pid < i then config.values[p] else old(values)[p]
      {
        PidCallsStep(config, i);
        AppendAssoc(old(calls), PidCalls(config, i), PidFieldCalls(config, i, |PID_FIELDS|));
        RestorePid(config, i);
        i := i + 1;
      }
    }

    /** The channel loop of rp_LoadLockboxConfig: both channels' settings restored, channel 0 first. */
    method RestoreChannels(config: ConfigRecord)
      requires Valid() && Complete(config.values)
      modifies this
      ensures Valid() && file == old(file)
      ensures calls == old(calls) + ChannelCalls(config, CHANNEL_COUNT)
      ensures forall p :: IsSaved(p) ==> values[p] == if p.ChannelParam? then config.values[p] else old(values)[p]
    {
      var ch := 0;
      while ch < CHANNEL_COUNT
        invariant 0 <= ch <= CHANNEL_COUNT
        invariant Valid() && file == old(file)
        invariant calls == old(calls) + ChannelCalls(config, ch)
        invariant forall p :: IsSaved(p) ==>
          values[p] == if p.ChannelParam? && p.channel < ch then config.values[p] else old(values)[p]
      {
        ChannelCallsStep(config, ch);
        AppendAssoc(old(calls), ChannelCalls(config, ch), ChannelFieldCalls(config, ch, |CHANNEL_FIELDS|));
        RestoreChannel(config, ch);
        ch := ch + 1;
      }
    }

    /** rp_LoadLockboxConfig: RP_EOCF when the file cannot be opened and
        RP_EICV when its version differs, in both cases before any setter
        is called; otherwise every saved setting is handed to its setter in
        the save order and the result is RP_OK whatever the setters return. */
    method LoadLockboxConfig(version: int) returns (status: Status)
      requires Valid()
      modifies this
      ensures Valid()
      ensures file == old(file)
      ensures old(file).None? ==> status == EOCF && values == old(values) && calls == old(calls)
      ensures old(file).Some? && old(file).value.version != version ==>
        status == EICV && values == old(values) && calls == old(calls)
      ensures old(file).Some? && old(file).value.version == version ==>
        status == Ok &&
        calls == old(calls) + LoadCalls(old(file).value) &&
        values == old(file).value.values
    {
      if file.None? {
        return EOCF;
      }
      var config := file.value;
      if config.version != version {
        return EICV;
      }
      ghost var start := values;
      RestorePids(config);
      ghost var afterPids := values;
      RestoreChannels(config);
      AppendAssoc(old(calls), PidCalls(config, PID_COUNT), ChannelCalls(config, CHANNEL_COUNT));
      assert forall p :: IsSaved(p) ==> values[p] == config.values[p];
      status := Ok;
    }
  }
}
