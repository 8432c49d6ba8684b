/**
 * The logic of the output-format dialog (dialog/FormatConfig.py): the device has a single
 * output supply VDDO, so choosing a voltage for one LVCMOS output may collide with the other
 * outputs; switching an output to LVCMOS is refused above the CMOS frequency limit; and the
 * termination index is reset when it does not exist at the current voltage.
 */
module FormatConfig {

  import opened Wrappers
  import opened Text
  import opened Config
  import opened Constants
  import Util

  /** `formatOptions`: the signal types in the order of the enum, as the selection lists them. */
  const FormatOptions: seq<SignalType> := SignalTypes

  /** `voltageOptions` as voltages. */
  const VoltageOptions: seq<SignalVoltage> := [V1p8, V2p5, V3p3]

  /** One step of `listVoltageCollisions`: the edited channel is skipped, so are LVDS and
      LVPECL channels and, unless the new voltage is 1.8 V, HCSL channels. */
  predicate Collides(ch: OutChannel, index: nat, v: SignalVoltage)
  {
    if ch.index == index then false
    else if ch.signal.kind == Lvds || ch.signal.kind == Lvpecl then false
    else if ch.signal.kind == Hcsl && v != V1p8 then false
    else true
  }

  /** The channels a new voltage collides with, in channel order. */
  function Collisions(chs: seq<OutChannel>, index: nat, v: SignalVoltage): seq<OutChannel>
  {
    if |chs| == 0 then []
    else
      var rest := Collisions(chs[..|chs| - 1], index, v);
      if Collides(chs[|chs| - 1], index, v) then rest + [chs[|chs| - 1]] else rest
  }

  /** What each kind of channel does: the edited channel never collides, LVDS and LVPECL never,
      HCSL only at 1.8 V, and the LVCMOS types always, enabled or not. */
  lemma {:induction false} CollisionMembers(chs: seq<OutChannel>, index: nat, v: SignalVoltage, ch: OutChannel)
    ensures ch in Collisions(chs, index, v) <==>
      ch in chs && ch.index != index &&
      match ch.signal.kind
      case Lvds => false
      case Lvpecl => false
      case Hcsl => v == V1p8
      case LvcmosInPhase => true
      case LvcmosCompl => true
  {
    if |chs| > 0 {
      CollisionMembers(chs[..|chs| - 1], index, v, ch);
      assert chs == chs[..|chs| - 1] + [chs[|chs| - 1]];
    }
  }

  /** `listVoltageCollisions`: one pass over the channels, appending each that collides. */
  method ListVoltageCollisions(chs: seq<OutChannel>, index: nat, newVoltage: SignalVoltage)
    returns (collisions: seq<OutChannel>)
    ensures collisions == Collisions(chs, index, newVoltage)
  {
    collisions := [];
    var i := 0;
    while i < |chs|
      invariant 0 <= i <= |chs|
      invariant collisions == Collisions(chs[..i], index, newVoltage)
    {
      var ch := chs[i];
      assert chs[..i + 1][..i] == chs[..i];
      if ch.index == index {
        // the channel being configured
      } else if ch.signal.kind == Lvds || ch.signal.kind == Lvpecl {
        // independent of the voltage
      } else if ch.signal.kind == Hcsl && newVoltage != V1p8 {
        // HCSL only collides with 1.8 V
      } else {
        collisions := collisions + [ch];
      }
      i := i + 1;
    }
    assert chs[..i] == chs;
  }

  /** The indexes of channels, as the collision message names them. */
  function Indexes(chs: seq<OutChannel>): (r: seq<nat>)
    ensures |r| == |chs| && forall k :: 0 <= k < |chs| ==> r[k] == chs[k].index
  {
    seq(|chs|, k requires 0 <= k < |chs| => chs[k].index)
  }

  /** The pieces of the message's channel list: the first index, then ", " and each further
      index, so that splitting at "," leaves one piece per index. */
  function Items(idxs: seq<nat>): (r: seq<string>)
    requires |idxs| > 0
    ensures |r| == |idxs| && forall k :: 0 <= k < |r| ==> ',' !in r[k]
  {
    seq(|idxs|, k requires 0 <= k < |idxs| =>
      assert AllDigits(NatToString(idxs[k]));
      if k == 0 then NatToString(idxs[0]) else " " + NatToString(idxs[k]))
  }

  /** A channel list built from the items before position n. */
  lemma ItemsStep(idxs: seq<nat>, s: string, i: nat)
    requires 1 <= i < |idxs| && s == Join(Items(idxs)[..i], ',')
    ensures s + ", " + NatToString(idxs[i]) == Join(Items(idxs)[..i + 1], ',')
  {
    assert Items(idxs)[..i + 1] == Items(idxs)[..i] + [" " + NatToString(idxs[i])];
    JoinSnoc(Items(idxs)[..i], " " + NatToString(idxs[i]), ',');
    assert s + ", " + NatToString(idxs[i]) == s + [','] + (" " + NatToString(idxs[i]));
  }

  /** The channel list as `voltageSelectionChange` builds it: the first index, then
      `range(1, len(collisions) - 1)`, which stops one index early. */
  method OutputListAsWritten(idxs: seq<nat>) returns (s: string)
    requires |idxs| > 0
    ensures s == Join(Items(idxs)[..if |idxs| >= 2 then |idxs| - 1 else 1], ',')
    ensures |Split(s, ',')| == if |idxs| >= 2 then |idxs| - 1 else 1
  {
    s := NatToString(idxs[0]);
    var i := 1;
    assert Items(idxs)[..1] == [s];
    while i < |idxs| - 1
      invariant 1 <= i <= if |idxs| >= 2 then |idxs| - 1 else 1
      invariant s == Join(Items(idxs)[..i], ',')
    {
      ItemsStep(idxs, s, i);
      s := s + ", " + NatToString(idxs[i]);
      i := i + 1;
    }
    SplitJoin(Items(idxs)[..i], ',');
  }

  /** Two collisions, on channels 1 and 2, are listed as "1": channel 2 is not named. */
  lemma OutputListMissesLast()
    ensures Join(Items([1, 2])[..1], ',') == "1" && '2' !in Join(Items([1, 2])[..1], ',')
  {
    assert Items([1, 2])[..1] == [NatToString(1)];
  }

  /** The channel list naming every collision: the first index, then ", " and each further one. */
  method OutputList(idxs: seq<nat>) returns (s: string)
    requires |idxs| > 0
    ensures s == Join(Items(idxs), ',')
    ensures |Split(s, ',')| == |idxs|
    ensures forall k :: 0 <= k < |idxs| ==> ParseInteger(Split(s, ',')[k], 10) == Some(idxs[k])
  {
    s := NatToString(idxs[0]);
    var i := 1;
    assert Items(idxs)[..1] == [s];
    while i < |idxs|
      invariant 1 <= i <= |idxs|
      invariant s == Join(Items(idxs)[..i], ',')
    {
      ItemsStep(idxs, s, i);
      s := s + ", " + NatToString(idxs[i]);
      i := i + 1;
    }
    assert Items(idxs)[..i] == Items(idxs);
    ListNamesAll(idxs);
  }

  /** Every index comes back, in order, from the list naming all collisions. */
  lemma ListNamesAll(idxs: seq<nat>)
    requires |idxs| > 0
    ensures Split(Join(Items(idxs), ','), ',') == Items(idxs)
    ensures forall k :: 0 <= k < |idxs| ==> ParseInteger(Items(idxs)[k], 10) == Some(idxs[k])
  {
    SplitJoin(Items(idxs), ',');
    forall k | 0 <= k < |idxs| ensures ParseInteger(Items(idxs)[k], 10) == Some(idxs[k]) {
      if k == 0 { ParseNatToString(idxs[0]); } else { ParsePaddedNat(idxs[k]); }
    }
  }

  /** The channels are numbered by position, as the application builds them. */
  predicate AtPositions(chs: seq<OutChannel>)
  {
    forall j :: 0 <= j < |chs| ==> chs[j].index == j
  }

  /** The termination options at a voltage. */
  function TerminationCount(v: SignalVoltage): nat
  {
    |TermOptions[Util.VoltIndex(v)]|
  }

  /** The end of `updateUI`: a termination index that the current voltage does not offer is
      reset to 0; nothing else changes. */
  function ResetImpedance(conf: Configuration, index: nat): (r: Configuration)
    requires index < |conf.channels|
    ensures |r.channels| == |conf.channels|
    ensures r.channels[index].signal.impedance < TerminationCount(r.vddo)
    ensures r == conf.(channels := r.channels)
    ensures r.channels[index] == conf.channels[index].(signal := r.channels[index].signal)
    ensures r.channels[index].signal == conf.channels[index].signal.(impedance := r.channels[index].signal.impedance)
    ensures forall j :: 0 <= j < |conf.channels| && j != index ==> r.channels[j] == conf.channels[j]
    ensures conf.channels[index].signal.impedance < TerminationCount(conf.vddo) ==> r == conf
  {
    var ch := conf.channels[index];
    assert TerminationCount(conf.vddo) >= 1;
    if ch.signal.impedance >= TerminationCount(conf.vddo) then
      conf.(channels := conf.channels[index := ch.(signal := ch.signal.(impedance := 0))])
    else conf
  }

  /** The channel at index with a new signal type. */
  function WithKind(conf: Configuration, index: nat, kind: SignalType): (r: Configuration)
    requires index < |conf.channels|
    ensures |r.channels| == |conf.channels| && r.channels[index].signal.kind == kind
  {
    var ch := conf.channels[index];
    conf.(channels := conf.channels[index := ch.(signal := ch.signal.(kind := kind))])
  }

  /** Whether `formatSelectionChange` accepts a type for a channel of the given frequency:
      the LVCMOS types only up to the CMOS output limit. */
  predicate FormatAllowed(kind: SignalType, frequency: nat)
  {
    !(kind.IsCmos() && frequency > OutputFMaxCmos)
  }

  /** Every HCSL channel other than the edited one turned into LVDS: what accepting a 1.8 V
      collision does to the channels. */
  function HcslToLvds(chs: seq<OutChannel>, index: nat): (r: seq<OutChannel>)
    ensures |r| == |chs|
  {
    seq(|chs|, j requires 0 <= j < |chs| =>
      if j != index && chs[j].signal.kind == Hcsl then chs[j].(signal := chs[j].signal.(kind := Lvds))
      else chs[j])
  }

  /** `voltageCollisionCallback(True)` before its `updateUI`: at 1.8 V the HCSL collisions
      become LVDS, then vddo takes the new voltage. */
  function AcceptVoltage(conf: Configuration, index: nat, v: SignalVoltage): Configuration
  {
    conf.(channels := if v == V1p8 then HcslToLvds(conf.channels, index) else conf.channels, vddo := v)
  }

  /** After accepting a voltage no HCSL channel collides with it any more; what collides is
      the LVCMOS channels other than the edited one, which share the new vddo. */
  lemma AcceptedHasNoHcslCollision(conf: Configuration, index: nat, v: SignalVoltage, ch: OutChannel)
    requires AtPositions(conf.channels)
    requires ch in Collisions(AcceptVoltage(conf, index, v).channels, index, v)
    ensures ch.signal.kind.IsCmos()
  {
    var chs := AcceptVoltage(conf, index, v).channels;
    CollisionMembers(chs, index, v, ch);
    if v == V1p8 {
      var j :| 0 <= j < |chs| && chs[j] == ch;
      assert ch.index == j;
    }
  }

  /** The state the format dialog works on: the configuration, the channel being edited and
      the voltage a collision warning is pending for. `self.format` is the edited channel's
      signal format. */
  class FormatDialog {
    var config: Configuration
    const index: nat
    var vTmp: Option<SignalVoltage>

    ghost predicate Valid()
      reads this
    {
      index < |config.channels| && AtPositions(config.channels)
    }

    /** `self.format` */
    function Format(): SignalFormat
      reads this
      requires Valid()
    {
      config.channels[index].signal
    }

    /** `FormatConfig(callback, config, index)`: opening the dialog runs `updateUI`. */
    constructor (conf: Configuration, index: nat)
      requires index < |conf.channels| && AtPositions(conf.channels)
      ensures Valid() && this.index == index && vTmp == None
      ensures config == ResetImpedance(conf, index)
    {
      this.index := index;
      config := ResetImpedance(conf, index);
      vTmp := None;
    }

    /** `updateUI`: the termination index is reset when it does not fit the voltage. */
    method UpdateUI()
      requires Valid()
      modifies this
      ensures Valid() && vTmp == old(vTmp)
      ensures config == ResetImpedance(old(config), index)
    {
      config := ResetImpedance(config, index);
    }

    /** `formatSelectionChange(i)`: an LVCMOS type above 250 MHz is rejected and the format
        stays; any other choice becomes the edited channel's type. */
    method FormatSelectionChange(i: nat) returns (accepted: bool)
      requires Valid() && i < |FormatOptions|
      modifies this
      ensures Valid() && vTmp == old(vTmp)
      ensures accepted <==> FormatAllowed(FormatOptions[i], old(config).channels[index].frequency)
      ensures config == ResetImpedance(if accepted then WithKind(old(config), index, FormatOptions[i]) else old(config), index)
    {
      var newFormat := FormatOptions[i];
      if newFormat.IsCmos() && config.channels[index].frequency > OutputFMaxCmos {
        UpdateUI();
        return false;
      }
      config := WithKind(config, index, newFormat);
      UpdateUI();
      accepted := true;
    }

    /** `terminationSelectionChange(i)`: the edited channel's termination index becomes i. */
    method TerminationSelectionChange(i: nat)
      requires Valid()
      modifies this
      ensures Valid() && vTmp == old(vTmp)
      ensures config == ResetImpedance(old(config).(channels := old(config).channels[index :=
        old(config).channels[index].(signal := old(config).channels[index].signal.(impedance := i))]), index)
    {
      var ch := config.channels[index];
      config := config.(channels := config.channels[index := ch.(signal := ch.signal.(impedance := i))]);
      UpdateUI();
    }

    /** `voltageSelectionChange(i)`: with no collision the voltage is taken at once; otherwise
        it is kept pending and the warning lists the colliding channels. */
    method VoltageSelectionChange(i: nat) returns (warning: Option<string>)
      requires Valid() && i < |VoltageOptions|
      modifies this
      ensures Valid() && vTmp == Some(VoltageOptions[i])
      ensures warning.None? <==> |Collisions(old(config).channels, index, VoltageOptions[i])| == 0
      ensures warning.None? ==> config == ResetImpedance(old(config).(vddo := VoltageOptions[i]), index)
      ensures warning.Some? ==> config == old(config)
      ensures warning.Some? ==>
        warning.value == Join(Items(Indexes(Collisions(old(config).channels, index, VoltageOptions[i]))), ',')
    {
      var v := VoltageOptions[i];
      var collisions := ListVoltageCollisions(config.channels, index, v);
      vTmp := Some(v);
      if |collisions| == 0 {
        config := config.(vddo := v);
        UpdateUI();
        warning := None;
      } else {
        var outputList := OutputList(Indexes(collisions));
        warning := Some(outputList);
      }
    }

    /** `voltageCollisionCallback(agreed)`: agreeing turns the colliding HCSL channels into
        LVDS when the pending voltage is 1.8 V and takes the voltage; declining keeps the
        configuration. Both end with `updateUI`. */
    method VoltageCollisionCallback(agreed: bool)
      requires Valid() && vTmp.Some?
      modifies this
      ensures Valid() && vTmp == old(vTmp)
      ensures config == ResetImpedance(if agreed then AcceptVoltage(old(config), index, old(vTmp).value) else old(config), index)
    {
      if agreed {
        var v := vTmp.value;
        var collisions := ListVoltageCollisions(config.channels, index, v);
        if v == V1p8 {
          ConvertCollisions(collisions);
        }
        config := config.(vddo := v);
      }
      UpdateUI();
    }

    /** The loop of `voltageCollisionCallback` at 1.8 V: each HCSL collision becomes LVDS. */
    method ConvertCollisions(collisions: seq<OutChannel>)
      requires Valid() && collisions == Collisions(config.channels, index, V1p8)
      modifies this
      ensures Valid() && vTmp == old(vTmp)
      ensures config == old(config).(channels := HcslToLvds(old(config).channels, index))
    {
      ghost var chs := config.channels;
      var k := 0;
      while k < |collisions|
        invariant 0 <= k <= |collisions| && Valid() && vTmp == old(vTmp)
        invariant config == old(config).(channels := config.channels) && |config.channels| == |chs|
        invariant forall j :: 0 <= j < |chs| ==>
          config.channels[j] == if chs[j] in collisions[..k] && chs[j].signal.kind == Hcsl
            then chs[j].(signal := chs[j].signal.(kind := Lvds)) else chs[j]
      {
        var coll := collisions[k];
        CollisionMembers(chs, index, V1p8, coll);
        var at := coll.index;
        assert chs[at] == coll;
        assert collisions[..k + 1] == collisions[..k] + [coll];
        if coll.signal.kind == Hcsl {
          var ch := config.channels[at];
          config := config.(channels := config.channels[at := ch.(signal := ch.signal.(kind := Lvds))]);
        }
        k := k + 1;
      }
      assert collisions[..k] == collisions;
      forall j | 0 <= j < |chs| ensures config.channels[j] == HcslToLvds(chs, index)[j] {
        CollisionMembers(chs, index, V1p8, chs[j]);
      }
    }
  }
}
