/** Reset operations, the power state each must end in (engine/verify.go), and the component state SMD is told
    (smd/update.go). */
module PowerStates {
  import opened Text
  import opened Records

  /** `redfish.ResetOperation`; `Other` is any value outside the six the library names. */
  datatype Operation = On | GracefulRestart | ForceRestart | NMI | ForceOff | GracefulShutdown | Other(name: string)

  /** `expectedFinalPowerState`. */
  function ExpectedState(op: Operation): Option<string> {
    match op
    case On | GracefulRestart | ForceRestart | NMI => Some("On")
    case ForceOff | GracefulShutdown => Some("Off")
    case Other(_) => None
  }

  datatype UpdateError = NodeIDRequired | UnsupportedPowerState | PatchFailed

  /** `componentStateForPowerState`. */
  function ComponentState(power: string): Option<string> {
    var p := ToLower(TrimSpace(power));
    if p == "on" then Some("Ready") else if p == "off" then Some("Off") else None
  }

  /** `UpdateNodePowerState`: the state SMD accepted, or why not. `patched` is SMD's answer to the request, if one is
      made. */
  function UpdateNodePowerState(nodeID: string, power: string,
                                patched: bool): (r: (Option<string>, Option<UpdateError>))
    ensures r.0.Some? <==> r.1.None?
  {
    if TrimSpace(nodeID) == "" then (None, Some(NodeIDRequired))
    else if ComponentState(power).None? then (None, Some(UnsupportedPowerState))
    else if !patched then (None, Some(PatchFailed))
    else (ComponentState(power), None)
  }

  // ---------------------------------------------------------------- what the states mean

  predicate TurnsOn(op: Operation) {
    op.On? || op.GracefulRestart? || op.ForceRestart? || op.NMI?
  }

  predicate TurnsOff(op: Operation) {
    op.ForceOff? || op.GracefulShutdown?
  }

  ghost predicate SaysOn(power: string) {
    Reads(power, "on", "ON")
  }

  ghost predicate SaysOff(power: string) {
    Reads(power, "off", "OFF")
  }

  /** `power` is the state in which operation `op` must end. */
  ghost predicate Reaches(op: Operation, power: string) {
    (TurnsOn(op) && SaysOn(power)) || (TurnsOff(op) && SaysOff(power))
  }

  /** The component state that SMD is told after operation `op`. */
  function Told(op: Operation): string {
    if TurnsOn(op) then "Ready" else "Off"
  }

  lemma SpellsTrimmed(m: string)
    ensures Spells(m, "on", "ON") || Spells(m, "off", "OFF") ==> Trimmed(m)
  {
  }

  lemma SpellsFolded(m: string)
    ensures Spells(m, "on", "ON") <==> ToLower(m) == "on"
    ensures Spells(m, "off", "OFF") <==> ToLower(m) == "off"
    ensures ToLower("On") == "on" && ToLower("Off") == "off"
  {
    assert ToLower("On") == "on" && ToLower("Off") == "off";
    var low := ToLower(m);
    if Spells(m, "on", "ON") {
      assert low == "on";
    }
    if Spells(m, "off", "OFF") {
      assert low == "off";
    }
    if low == "on" {
      assert low[0] == 'o' && low[1] == 'n';
    }
    if low == "off" {
      assert low[0] == 'o' && low[1] == 'f' && low[2] == 'f';
    }
  }

  lemma SaysMeans(power: string)
    ensures SaysOn(power) <==> ToLower(TrimSpace(power)) == "on"
    ensures SaysOff(power) <==> ToLower(TrimSpace(power)) == "off"
  {
    hide TrimSpace, Trimmed, Spells, Padded, ToLower;
    var m := TrimSpace(power);
    TrimSpaceMeans(power, m);
    SpellsFolded(m);
    if SaysOn(power) {
      var n :| Padded(power, n) && Spells(n, "on", "ON");
      SpellsTrimmed(n);
      TrimSpaceMeans(power, n);
    }
    if SaysOff(power) {
      var n :| Padded(power, n) && Spells(n, "off", "OFF");
      SpellsTrimmed(n);
      TrimSpaceMeans(power, n);
    }
  }

  lemma SaysTrimmed(power: string)
    ensures SaysOn(TrimSpace(power)) <==> SaysOn(power)
    ensures SaysOff(TrimSpace(power)) <==> SaysOff(power)
  {
    hide SaysOn, SaysOff, TrimSpace;
    SaysMeans(power);
    SaysMeans(TrimSpace(power));
    assert TrimSpace(TrimSpace(power)) == TrimSpace(power);
  }

  /** What verification looks for, and what SMD is told about it. */
  lemma ReachesMeans(op: Operation, power: string)
    ensures ExpectedState(op).None? <==> op.Other?
    ensures Reaches(op, power) <==>
            ExpectedState(op).Some? && EqualFold(TrimSpace(power), ExpectedState(op).value)
    ensures Reaches(op, power) ==> ComponentState(power) == Some(Told(op))
    ensures ComponentState(power) ==
            if SaysOn(power) then Some("Ready") else if SaysOff(power) then Some("Off") else None
  {
    hide TrimSpace, ToLower, SaysOn, SaysOff;
    SaysMeans(power);
    SpellsFolded(power);
  }

  /** When the update is refused, and what SMD is told otherwise. */
  lemma UpdateMeans(nodeID: string, power: string, patched: bool)
    ensures UpdateNodePowerState(nodeID, power, patched) ==
            if Blank(nodeID) then (None, Some(NodeIDRequired))
            else if !SaysOn(power) && !SaysOff(power) then (None, Some(UnsupportedPowerState))
            else if !patched then (None, Some(PatchFailed))
            else (Some(if SaysOn(power) then "Ready" else "Off"), None)
  {
    hide TrimSpace, SaysOn, SaysOff, ComponentState, Blank;
    BlankMeans(nodeID);
    ReachesMeans(On, power);
  }

  /** The only way the update of a verified node can fail is SMD refusing the request: after operation `op` SMD is told
      "Ready" or "Off", whichever belongs to the state that was reached. */
  lemma VerifiedStateSupported(op: Operation, power: string, nodeID: string, patched: bool)
    requires Reaches(op, power) && !Blank(nodeID)
    ensures UpdateNodePowerState(nodeID, power, patched) ==
            if patched then (Some(Told(op)), None) else (None, Some(PatchFailed))
  {
    hide TrimSpace, Reaches, Told, ComponentState;
    ReachesMeans(op, power);
    BlankMeans(nodeID);
  }
}
