/**
 * The process-wide feature-gate registry, as a value: a map from gate name
 * to its enabled state. The webhook only ever asks one question of it
 * (is `MachinePool` on?); the tests set a gate for the length of a test and
 * restore the previous state afterwards.
 */
module FeatureGates {

  type GateSet = map<string, bool>

  /** Name of the gate the managed-cluster resource is behind. */
  const MachinePool: string := "MachinePool"

  /** The registry at process start: `MachinePool` is registered and off. */
  const Defaults: GateSet := map[MachinePool := false]

  /** State of a gate; a name that was never registered reads as off. */
  predicate Enabled(gates: GateSet, name: string)
  {
    name in gates && gates[name]
  }

  /** What an override remembers about a gate, so that it can be undone. */
  datatype Saved = Unregistered | WasSet(enabled: bool)

  function Save(gates: GateSet, name: string): (s: Saved)
    ensures s.WasSet? <==> name in gates
    ensures s.WasSet? ==> s.enabled == gates[name]
  {
    if name in gates then WasSet(gates[name]) else Unregistered
  }

  /** Set one gate for the duration of a test; every other gate is untouched. */
  function Override(gates: GateSet, name: string, value: bool): (r: GateSet)
    ensures Enabled(r, name) == value
    ensures forall other :: other != name ==> (Enabled(r, other) <==> Enabled(gates, other))
    ensures r.Keys == gates.Keys + {name}
  {
    gates[name := value]
  }

  /** Put one gate back the way `Save` found it. */
  function Restore(gates: GateSet, name: string, saved: Saved): (r: GateSet)
    ensures saved.WasSet? ==> name in r && r[name] == saved.enabled
    ensures saved.Unregistered? ==> name !in r
    ensures forall other :: other != name ==> (other in r <==> other in gates)
    ensures forall other :: other != name && other in gates ==> r[other] == gates[other]
  {
    match saved
    case WasSet(b) => gates[name := b]
    case Unregistered => gates - {name}
  }

  /** An override followed by the restore handle it handed out leaves the registry as it was. */
  lemma OverrideThenRestore(gates: GateSet, name: string, value: bool)
    ensures Restore(Override(gates, name, value), name, Save(gates, name)) == gates
  {
    var r := Restore(Override(gates, name, value), name, Save(gates, name));
    assert r.Keys == gates.Keys;
  }

  /** Without any override, `MachinePool` is off. */
  lemma MachinePoolOffByDefault()
    ensures !Enabled(Defaults, MachinePool)
  {
  }
}
