/**
 * The table-driven webhook tests, one lemma per row, stated on concrete
 * objects and derived from the general update and create lemmas.
 */
module ManagedClusterWebhookScenarios {
  import opened ManagedCluster
  import opened ManagedClusterWebhook
  import FeatureGates

  const SomeFeature: string := CustomHeaderPrefix + "SomeFeature"
  const AnotherFeature: string := CustomHeaderPrefix + "AnotherFeature"
  const AksHost: string := "aks-8622-h4h26c44.hcp.eastus.azmk8s.io"

  function WithAnnotations(annotations: map<string, string>): (m: AzureManagedCluster)
    ensures m.meta.annotations == annotations && m.spec == Empty.spec
  {
    Empty.(meta := ObjectMeta(annotations))
  }

  function WithEndpoint(host: string, port: int): (m: AzureManagedCluster)
    ensures m.meta == Empty.meta && m.spec.controlPlaneEndpoint == APIEndpoint(host, port)
  {
    Empty.(spec := AzureManagedClusterSpec(APIEndpoint(host, port)))
  }

  /** "custom header annotation values are immutable" */
  lemma ValueChangeRejected()
    ensures ValidateUpdate(WithAnnotations(map[SomeFeature := "true"]), WithAnnotations(map[SomeFeature := "false"]))
      == Denied({AnnotationImmutable(SomeFeature)})
  {
    var prior := WithAnnotations(map[SomeFeature := "true"]);
    UpdateRejectsValueChange(prior, SomeFeature, "false");
    assert map[SomeFeature := "true"][SomeFeature := "false"] == map[SomeFeature := "false"];
  }

  /** "custom header annotations cannot be removed after resource creation" */
  lemma RemovalRejected()
    ensures ValidateUpdate(WithAnnotations(map[SomeFeature := "true"]), WithAnnotations(map[]))
      == Denied({AnnotationRemoved(SomeFeature)})
  {
    var prior := WithAnnotations(map[SomeFeature := "true"]);
    UpdateRejectsRemoval(prior, SomeFeature);
    assert map[SomeFeature := "true"] - {SomeFeature} == map[];
  }

  /** "custom header annotations cannot be added after resource creation" */
  lemma AdditionRejected()
    ensures ValidateUpdate(
        WithAnnotations(map[SomeFeature := "true"]),
        WithAnnotations(map[SomeFeature := "true", AnotherFeature := "true"]))
      == Denied({AnnotationAdded(AnotherFeature)})
  {
    var prior := WithAnnotations(map[SomeFeature := "true"]);
    assert AnotherFeature != SomeFeature by {
      assert AnotherFeature[|CustomHeaderPrefix|] != SomeFeature[|CustomHeaderPrefix|];
    }
    UpdateRejectsAddition(prior, AnotherFeature, "true");
  }

  /** "non-custom header annotations are mutable" */
  lemma OtherAnnotationsMutable()
    ensures ValidateUpdate(
        WithAnnotations(map["annotation-a" := "true", SomeFeature := "true"]),
        WithAnnotations(map[SomeFeature := "true", "annotation-b" := "true"]))
      == Allowed
  {
    var prior := WithAnnotations(map["annotation-a" := "true", SomeFeature := "true"]);
    var updated := WithAnnotations(map[SomeFeature := "true", "annotation-b" := "true"]);
    assert !IsCustomHeader("annotation-a") && !IsCustomHeader("annotation-b");
    UpdateIgnoresOtherAnnotationRemoval(prior, prior, "annotation-a");
    assert prior.meta.annotations - {"annotation-a"} == map[SomeFeature := "true"];
    UpdateIdentityAllowed(prior);
    var middle := prior.(meta := ObjectMeta(map[SomeFeature := "true"]));
    assert ValidateUpdate(prior, middle) == Allowed;
    UpdateIgnoresOtherAnnotationSet(prior, middle, "annotation-b", "true");
    assert middle.meta.annotations["annotation-b" := "true"] == updated.meta.annotations;
  }

  /** "ControlPlaneEndpoint.Port update (AKS API-derived update scenario)" */
  lemma EndpointPortUpdateAllowed()
    ensures ValidateUpdate(WithEndpoint(AksHost, 0), WithEndpoint(AksHost, 443)) == Allowed
  {
    var prior := WithEndpoint(AksHost, 0);
    UpdateIdentityAllowed(prior);
    UpdateIgnoresEndpoint(prior, prior, APIEndpoint(AksHost, 443));
  }

  /** "ControlPlaneEndpoint.Host update (AKS API-derived update scenario)" */
  lemma EndpointHostUpdateAllowed()
    ensures ValidateUpdate(WithEndpoint("", 443), WithEndpoint(AksHost, 443)) == Allowed
  {
    var prior := WithEndpoint("", 443);
    UpdateIdentityAllowed(prior);
    UpdateIgnoresEndpoint(prior, prior, APIEndpoint(AksHost, 443));
  }

  /** "can set Spec.ControlPlaneEndpoint.Host / .Port during create (clusterctl move scenario)", gate on */
  lemma CreateWithEndpointAllowed(gates: FeatureGates.GateSet)
    ensures var on := FeatureGates.Override(gates, FeatureGates.MachinePool, true);
      ValidateCreateWith(on, WithEndpoint("my-host", 0)) == Allowed
      && ValidateCreateWith(on, WithEndpoint("", 4443)) == Allowed
  {
    CreateFollowsOverride(gates, WithEndpoint("my-host", 0), true);
    CreateFollowsOverride(gates, WithEndpoint("", 4443), true);
  }

  /** "feature gate explicitly disabled" and "feature gate implicitly disabled" */
  lemma CreateOfEmptyRejectedWhenGateOff(gates: FeatureGates.GateSet)
    ensures ValidateCreateWith(FeatureGates.Override(gates, FeatureGates.MachinePool, false), Empty).Denied?
    ensures ValidateCreateWith(FeatureGates.Defaults, Empty).Denied?
  {
    CreateFollowsOverride(gates, Empty, false);
    CreateRejectedByDefault(Empty);
  }
}
