/**
 * Admission validation of `AzureManagedCluster`: creation is allowed only
 * behind the `MachinePool` feature gate, and once the object exists its
 * custom-header annotations are frozen while everything else may change.
 */
module ManagedClusterWebhook {
  import opened ManagedCluster
  import FeatureGates

  /** One reason for a rejection; a rejection carries all of them at once. */
  datatype Violation =
    | FeatureDisabled(gate: string)
    | AnnotationImmutable(key: string)
    | AnnotationRemoved(key: string)
    | AnnotationAdded(key: string)

  /** The admission answer: no error, or an error aggregating every violation found. */
  datatype Verdict = Allowed | Denied(violations: set<Violation>)

  /** How one annotation key breaks the freeze between the prior and the updated custom-header maps. */
  function Classify(before: map<string, string>, after: map<string, string>, key: string): (v: Violation)
    requires key in before || key in after
    ensures v.AnnotationRemoved? <==> key in before && key !in after
    ensures v.AnnotationAdded? <==> key !in before && key in after
    ensures v.AnnotationImmutable? <==> key in before && key in after
    ensures !v.FeatureDisabled? && v.key == key
  {
    if key !in after then AnnotationRemoved(key)
    else if key !in before then AnnotationAdded(key)
    else AnnotationImmutable(key)
  }

  /** True when a key is present in exactly the same way, with the same value, in both maps. */
  predicate Unchanged(before: map<string, string>, after: map<string, string>, key: string)
  {
    (key !in before && key !in after) || (key in before && key in after && before[key] == after[key])
  }

  /** Every custom-header annotation that was changed, removed or added by an update. */
  function AnnotationViolations(prior: AzureManagedCluster, updated: AzureManagedCluster): (vs: set<Violation>)
    ensures forall v :: v in vs ==> !v.FeatureDisabled? && IsCustomHeader(v.key)
    ensures forall v :: v in vs ==> !Unchanged(prior.meta.annotations, updated.meta.annotations, v.key)
  {
    var before, after := CustomHeaders(prior.meta.annotations), CustomHeaders(updated.meta.annotations);
    set k | k in before.Keys + after.Keys && !Unchanged(before, after, k) :: Classify(before, after, k)
  }

  /** Removed(k), Added(k) and Immutable(k) are reported exactly for the custom-header keys that were dropped, introduced or given a new value. */
  lemma AnnotationViolationsExact(prior: AzureManagedCluster, updated: AzureManagedCluster)
    ensures forall k :: AnnotationRemoved(k) in AnnotationViolations(prior, updated) <==>
      IsCustomHeader(k) && k in prior.meta.annotations && k !in updated.meta.annotations
    ensures forall k :: AnnotationAdded(k) in AnnotationViolations(prior, updated) <==>
      IsCustomHeader(k) && k !in prior.meta.annotations && k in updated.meta.annotations
    ensures forall k :: AnnotationImmutable(k) in AnnotationViolations(prior, updated) <==>
      IsCustomHeader(k) && k in prior.meta.annotations && k in updated.meta.annotations
      && prior.meta.annotations[k] != updated.meta.annotations[k]
  {
    var before, after := CustomHeaders(prior.meta.annotations), CustomHeaders(updated.meta.annotations);
    var vs := AnnotationViolations(prior, updated);
    forall k | !Unchanged(before, after, k) && (k in before || k in after)
      ensures Classify(before, after, k) in vs
    {
    }
    forall v | v in vs
      ensures Classify(before, after, v.key) == v
    {
      var j :| j in before.Keys + after.Keys && !Unchanged(before, after, j) && Classify(before, after, j) == v;
    }
  }

  /** `amc.ValidateUpdate(oldAMC)`: `prior` is the stored object, `updated` the one submitted. */
  function ValidateUpdate(prior: AzureManagedCluster, updated: AzureManagedCluster): (r: Verdict)
    ensures r.Allowed? <==> AnnotationViolations(prior, updated) == {}
    ensures r.Denied? ==> r.violations == AnnotationViolations(prior, updated)
  {
    var vs := AnnotationViolations(prior, updated);
    if vs == {} then Allowed else Denied(vs)
  }

  /** `ValidateCreate()`, with the state of the `MachinePool` gate at call time as a parameter. */
  function ValidateCreate(amc: AzureManagedCluster, machinePoolEnabled: bool): (r: Verdict)
    ensures r.Allowed? <==> machinePoolEnabled
    ensures r.Denied? ==> r.violations == {FeatureDisabled(FeatureGates.MachinePool)}
  {
    if machinePoolEnabled then Allowed else Denied({FeatureDisabled(FeatureGates.MachinePool)})
  }

  /** `ValidateCreate()` reading the gate from a registry. */
  function ValidateCreateWith(gates: FeatureGates.GateSet, amc: AzureManagedCluster): (r: Verdict)
    ensures r.Allowed? <==> FeatureGates.MachinePool in gates && gates[FeatureGates.MachinePool]
  {
    ValidateCreate(amc, FeatureGates.Enabled(gates, FeatureGates.MachinePool))
  }

  // ---------------------------------------------------------------------------
  // Update policy
  // ---------------------------------------------------------------------------

  /** An update is allowed exactly when the custom-header parts of the prior and updated annotations are equal. */
  lemma UpdateAllowedIffCustomHeadersFrozen(prior: AzureManagedCluster, updated: AzureManagedCluster)
    ensures ValidateUpdate(prior, updated).Allowed? <==>
      CustomHeaders(prior.meta.annotations) == CustomHeaders(updated.meta.annotations)
  {
    var a, b := prior.meta.annotations, updated.meta.annotations;
    CustomHeadersEqualIff(a, b);
    if ValidateUpdate(prior, updated).Allowed? {
      forall k | IsCustomHeader(k)
        ensures (k in a <==> k in b) && (k in a && k in b ==> a[k] == b[k])
      {
        assert AnnotationRemoved(k) !in AnnotationViolations(prior, updated);
        assert AnnotationAdded(k) !in AnnotationViolations(prior, updated);
        assert AnnotationImmutable(k) !in AnnotationViolations(prior, updated);
      }
    } else {
      var v :| v in AnnotationViolations(prior, updated);
      assert !Unchanged(a, b, v.key);
    }
  }

  /** Updating an object to itself is always allowed. */
  lemma UpdateIdentityAllowed(m: AzureManagedCluster)
    ensures ValidateUpdate(m, m) == Allowed
  {
    UpdateAllowedIffCustomHeadersFrozen(m, m);
  }

  /** Any difference at a custom-header key rejects the update, naming that key. */
  lemma UpdateRejectsCustomHeaderChange(prior: AzureManagedCluster, updated: AzureManagedCluster, key: string)
    requires IsCustomHeader(key)
    requires !Unchanged(prior.meta.annotations, updated.meta.annotations, key)
    ensures ValidateUpdate(prior, updated).Denied?
    ensures exists v :: v in ValidateUpdate(prior, updated).violations && v.key == key
  {
    var a, b := prior.meta.annotations, updated.meta.annotations;
    var v := Classify(a, b, key);
    assert v in AnnotationViolations(prior, updated);
  }

  /** Giving an existing custom-header annotation another value is rejected as an immutable-value change. */
  lemma UpdateRejectsValueChange(prior: AzureManagedCluster, key: string, value: string)
    requires IsCustomHeader(key) && key in prior.meta.annotations && prior.meta.annotations[key] != value
    ensures var updated := prior.(meta := ObjectMeta(prior.meta.annotations[key := value]));
      ValidateUpdate(prior, updated) == Denied({AnnotationImmutable(key)})
  {
    var updated := prior.(meta := ObjectMeta(prior.meta.annotations[key := value]));
    var vs := AnnotationViolations(prior, updated);
    forall v | v in vs ensures v == AnnotationImmutable(key) {
      assert !Unchanged(prior.meta.annotations, updated.meta.annotations, v.key);
    }
    assert AnnotationImmutable(key) in vs;
    assert vs == {AnnotationImmutable(key)};
  }

  /** Dropping an existing custom-header annotation is rejected as a removal. */
  lemma UpdateRejectsRemoval(prior: AzureManagedCluster, key: string)
    requires IsCustomHeader(key) && key in prior.meta.annotations
    ensures var updated := prior.(meta := ObjectMeta(prior.meta.annotations - {key}));
      ValidateUpdate(prior, updated) == Denied({AnnotationRemoved(key)})
  {
    var updated := prior.(meta := ObjectMeta(prior.meta.annotations - {key}));
    var vs := AnnotationViolations(prior, updated);
    forall v | v in vs ensures v == AnnotationRemoved(key) {
      assert !Unchanged(prior.meta.annotations, updated.meta.annotations, v.key);
    }
    assert AnnotationRemoved(key) in vs;
    assert vs == {AnnotationRemoved(key)};
  }

  /** Introducing a new custom-header annotation is rejected as an addition, even if all others are kept. */
  lemma UpdateRejectsAddition(prior: AzureManagedCluster, key: string, value: string)
    requires IsCustomHeader(key) && key !in prior.meta.annotations
    ensures var updated := prior.(meta := ObjectMeta(prior.meta.annotations[key := value]));
      ValidateUpdate(prior, updated) == Denied({AnnotationAdded(key)})
  {
    var updated := prior.(meta := ObjectMeta(prior.meta.annotations[key := value]));
    var vs := AnnotationViolations(prior, updated);
    forall v | v in vs ensures v == AnnotationAdded(key) {
      assert !Unchanged(prior.meta.annotations, updated.meta.annotations, v.key);
    }
    assert AnnotationAdded(key) in vs;
    assert vs == {AnnotationAdded(key)};
  }

  /** Two submitted objects with the same custom-header annotations get the same verdict, whatever else differs. */
  lemma UpdateDependsOnlyOnCustomHeaders(prior: AzureManagedCluster, updated: AzureManagedCluster, updated': AzureManagedCluster)
    requires CustomHeaders(updated.meta.annotations) == CustomHeaders(updated'.meta.annotations)
    ensures ValidateUpdate(prior, updated) == ValidateUpdate(prior, updated')
  {
    var vs, vs' := AnnotationViolations(prior, updated), AnnotationViolations(prior, updated');
    CustomHeadersEqualIff(updated.meta.annotations, updated'.meta.annotations);
    forall v | v in vs ensures v in vs' {
      assert IsCustomHeader(v.key);
    }
    forall v | v in vs' ensures v in vs {
      assert IsCustomHeader(v.key);
    }
    assert vs == vs';
  }

  /** Adding or changing an annotation without the prefix never changes the verdict. */
  lemma UpdateIgnoresOtherAnnotationSet(prior: AzureManagedCluster, updated: AzureManagedCluster, key: string, value: string)
    requires !IsCustomHeader(key)
    ensures ValidateUpdate(prior, updated.(meta := ObjectMeta(updated.meta.annotations[key := value]))) == ValidateUpdate(prior, updated)
  {
    var a := updated.meta.annotations;
    CustomHeadersEqualIff(a[key := value], a);
    UpdateDependsOnlyOnCustomHeaders(prior, updated.(meta := ObjectMeta(a[key := value])), updated);
  }

  /** Removing an annotation without the prefix never changes the verdict. */
  lemma UpdateIgnoresOtherAnnotationRemoval(prior: AzureManagedCluster, updated: AzureManagedCluster, key: string)
    requires !IsCustomHeader(key)
    ensures ValidateUpdate(prior, updated.(meta := ObjectMeta(updated.meta.annotations - {key}))) == ValidateUpdate(prior, updated)
  {
    var a := updated.meta.annotations;
    CustomHeadersEqualIff(a - {key}, a);
    UpdateDependsOnlyOnCustomHeaders(prior, updated.(meta := ObjectMeta(a - {key})), updated);
  }

  /** The control-plane endpoint, host and port alike, may change freely on update. */
  lemma UpdateIgnoresEndpoint(prior: AzureManagedCluster, updated: AzureManagedCluster, endpoint: APIEndpoint)
    requires ValidateUpdate(prior, updated).Allowed?
    ensures ValidateUpdate(prior, updated.(spec := AzureManagedClusterSpec(endpoint))).Allowed?
    ensures ValidateUpdate(prior.(spec := AzureManagedClusterSpec(endpoint)), updated).Allowed?
  {
    UpdateAllowedIffCustomHeadersFrozen(prior, updated);
    UpdateAllowedIffCustomHeadersFrozen(prior, updated.(spec := AzureManagedClusterSpec(endpoint)));
    UpdateAllowedIffCustomHeadersFrozen(prior.(spec := AzureManagedClusterSpec(endpoint)), updated);
  }

  // ---------------------------------------------------------------------------
  // Create policy
  // ---------------------------------------------------------------------------

  /** For any one state of the gate, any two objects get the same create verdict: contents never matter. */
  lemma CreateIgnoresContents(m: AzureManagedCluster, m': AzureManagedCluster, machinePoolEnabled: bool)
    ensures ValidateCreate(m, machinePoolEnabled) == ValidateCreate(m', machinePoolEnabled)
  {
  }

  /** With the registry as it is at process start, every create is rejected as feature-disabled. */
  lemma CreateRejectedByDefault(m: AzureManagedCluster)
    ensures ValidateCreateWith(FeatureGates.Defaults, m) == Denied({FeatureDisabled("MachinePool")})
  {
    FeatureGates.MachinePoolOffByDefault();
  }

  /** An override of `MachinePool` decides create by the value it sets. */
  lemma CreateFollowsOverride(gates: FeatureGates.GateSet, m: AzureManagedCluster, value: bool)
    ensures ValidateCreateWith(FeatureGates.Override(gates, FeatureGates.MachinePool, value), m).Allowed? == value
  {
  }
}
