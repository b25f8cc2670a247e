/** The behaviour every stack inherits from `N8nBaseStack`: the environment
    lookup, stack properties, removal policy, tag application, resource naming,
    output export keys and the shared-resource registry. The Python stacks
    subclass it; here each stack holds one `N8nBaseStack` object as `base`. */
module BaseStack {
  import opened Common
  import opened Config
  import opened Resources

  datatype RemovalPolicy = Destroy | Retain

  datatype StackProps = StackProps(description: string, terminationProtection: bool)

  /** The stack properties a caller passes as keyword arguments; each one set overrides the default. */
  datatype PropOverrides = PropOverrides(description: Option<string>, terminationProtection: Option<bool>,
                                         stackName: Option<string>)

  datatype Tag = Tag(key: string, value: string)

  const EnvironmentPlaceholder: string := "{{ environment }}"

  /** Output names containing one of these are exported under a global key. */
  const ExportableOutputs: seq<string> := [
    "VpcId", "SubnetIds", "SecurityGroupId", "ClusterArn", "ServiceArn",
    "LoadBalancerUrl", "ApiUrl", "DatabaseEndpoint", "FileSystemId"
  ]

  /** `stack_name`: the name the caller passed, else the construct id of a stack placed
      directly in the app. */
  function StackNameFor(constructId: string, kwargs: PropOverrides): (name: string)
    ensures kwargs.stackName.Some? ==> name == kwargs.stackName.value
    ensures kwargs.stackName.None? ==> name == constructId
  {
    kwargs.stackName.GetOr(constructId)
  }

  /** Stack properties: the defaults, updated with whatever the caller passed. */
  function ResolveStackProps(constructId: string, environment: string, kwargs: PropOverrides): (p: StackProps)
    ensures kwargs.description.Some? ==> p.description == kwargs.description.value
    ensures kwargs.description.None? ==> p.description == "n8n Serverless - " + constructId + " - " + environment
    ensures kwargs.terminationProtection.Some? ==> p.terminationProtection == kwargs.terminationProtection.value
    ensures kwargs.terminationProtection.None? ==> (p.terminationProtection <==> environment == "production")
  {
    var defaults := StackProps("n8n Serverless - " + constructId + " - " + environment, environment == "production");
    StackProps(
      kwargs.description.GetOr(defaults.description),
      kwargs.terminationProtection.GetOr(defaults.terminationProtection))
  }

  /** Removal policy of the stack's resources. */
  function RemovalPolicyFor(environment: string): (p: RemovalPolicy)
    ensures p == Destroy <==> environment == "dev"
  {
    if environment == "dev" then Destroy else Retain
  }

  /** `is_production`: the lower-cased name is "production" or "prod". */
  predicate IsProduction(environment: string)
  {
    ToLower(environment) in ["production", "prod"]
  }

  /** `is_development`: the lower-cased name is "development" or "dev". */
  predicate IsDevelopment(environment: string)
  {
    ToLower(environment) in ["development", "dev"]
  }

  /** No environment name is both a production and a development name. */
  lemma ProductionExcludesDevelopment(environment: string)
    ensures !(IsProduction(environment) && IsDevelopment(environment))
  {
  }

  /** Both classifications ignore the case the name is written in. */
  lemma ClassificationIgnoresCase(environment: string)
    ensures IsProduction(ToUpper(environment)) == IsProduction(environment)
    ensures IsDevelopment(ToUpper(environment)) == IsDevelopment(environment)
  {
    LowerIgnoresCase(environment);
  }

  /** "PROD" is a production name, yet termination protection compares the name exactly
      with "production", so it gets none by default. Its removal policy is RETAIN, as for
      every name other than "dev". */
  lemma ProductionAliasIsNotProtected()
    ensures IsProduction("PROD")
    ensures !ResolveStackProps("network", "PROD", PropOverrides(None, None, None)).terminationProtection
    ensures RemovalPolicyFor("PROD") == Retain
  {
    assert ToLower("PROD") == "prod";
  }

  /** `should_export_output`: some whitelist entry is a substring of the name, checked
      entry by entry in whitelist order. */
  predicate ShouldExportOutput(outputName: string)
  {
    MatchesFrom(outputName, 0)
  }

  /** Some whitelist entry from index `k` on is a substring of the name. */
  predicate MatchesFrom(outputName: string, k: nat)
    decreases |ExportableOutputs| - k
  {
    k < |ExportableOutputs| && (Contains(outputName, ExportableOutputs[k]) || MatchesFrom(outputName, k + 1))
  }

  lemma {:induction false} MatchesFromIff(outputName: string, k: nat)
    ensures MatchesFrom(outputName, k) <==>
      exists j :: k <= j < |ExportableOutputs| && Contains(outputName, ExportableOutputs[j])
    decreases |ExportableOutputs| - k
  {
    if k < |ExportableOutputs| {
      MatchesFromIff(outputName, k + 1);
      if Contains(outputName, ExportableOutputs[k]) {
        assert k <= k < |ExportableOutputs| && Contains(outputName, ExportableOutputs[k]);
      }
    }
  }

  /** A name is exported exactly when some whitelist entry occurs in it. */
  lemma ShouldExportOutputIff(outputName: string)
    ensures ShouldExportOutput(outputName) <==>
      exists k :: 0 <= k < |ExportableOutputs| && Contains(outputName, ExportableOutputs[k])
  {
    MatchesFromIff(outputName, 0);
  }

  /** A name that is exportable stays exportable inside any longer name. */
  lemma ExportableWithin(outputName: string, before: string, after: string)
    requires ShouldExportOutput(outputName)
    ensures ShouldExportOutput(before + outputName + after)
  {
    ShouldExportOutputIff(outputName);
    var k :| 0 <= k < |ExportableOutputs| && Contains(outputName, ExportableOutputs[k]);
    ContainsWithin(outputName, ExportableOutputs[k], before, after);
    ShouldExportOutputIff(before + outputName + after);
  }

  /** A name is exportable when whitelist entry `k` occurs in it at position `at`. */
  lemma ExportableBy(outputName: string, k: nat, at: nat)
    requires k < |ExportableOutputs| && OccursAt(outputName, ExportableOutputs[k], at)
    ensures ShouldExportOutput(outputName)
  {
    assert Contains(outputName, ExportableOutputs[k]);
    ShouldExportOutputIff(outputName);
  }

  /** A name is not exportable when, for each whitelist entry `k`, the character
      `missing[k]` is in the entry but not in the name. */
  lemma NotExportable(outputName: string, missing: string)
    requires |missing| == |ExportableOutputs|
    requires forall k :: 0 <= k < |ExportableOutputs| ==> missing[k] in ExportableOutputs[k] && missing[k] !in outputName
    ensures !ShouldExportOutput(outputName)
  {
    forall k | 0 <= k < |ExportableOutputs| ensures !Contains(outputName, ExportableOutputs[k]) {
      MissingCharNotContained(outputName, ExportableOutputs[k], missing[k]);
    }
    ShouldExportOutputIff(outputName);
  }

  /** The network outputs the unit tests expect to be exported. */
  lemma NetworkNamesExported()
    ensures ShouldExportOutput("VpcId") && ShouldExportOutput("SubnetIds")
  {
    ExportableBy("VpcId", 0, 0);
    ExportableBy("SubnetIds", 1, 0);
  }

  /** Security-group outputs are exported, also under a longer name. */
  lemma SecurityGroupNamesExported()
    ensures ShouldExportOutput("SecurityGroupId") && ShouldExportOutput("DatabaseSecurityGroupId")
  {
    ExportableBy("SecurityGroupId", 2, 0);
    ExportableBy("DatabaseSecurityGroupId", 2, 8);
  }

  /** The service output the unit tests expect to be exported. */
  lemma ServiceArnExported()
    ensures ShouldExportOutput("ServiceArn")
  {
    ExportableBy("ServiceArn", 4, 0);
  }

  /** "RandomMetric" matches no whitelist entry. */
  lemma RandomMetricNotExported()
    ensures !ShouldExportOutput("RandomMetric")
  {
    NotExportable("RandomMetric", "VSSCSLADF");
  }

  /** "InternalValue" matches no whitelist entry. */
  lemma InternalValueNotExported()
    ensures !ShouldExportOutput("InternalValue")
  {
    NotExportable("InternalValue", "pSSCSLADF");
  }

  /** `add_output`: the output a stack records for `name`. */
  function MakeOutput(stackName: string, name: string, value: Value, description: string, exportName: Option<string>): (o: Output)
    ensures o.name == name && o.value == value && o.requestedExport == exportName
    ensures description != "" ==> o.description == description
    ensures description == "" ==> o.description == name + " for " + stackName
  {
    Output(name, value, if description != "" then description else name + " for " + stackName, exportName)
  }

  /** The key an output of stack `stackName` is exported under: the requested one, else
      "{stack}-{name}" when the name is exportable, else none. */
  function ExportKey(stackName: string, o: Output): (key: Option<string>)
    ensures o.requestedExport.Some? ==> key == o.requestedExport
    ensures o.requestedExport.None? ==>
      (key.Some? <==> ShouldExportOutput(o.name)) && (key.Some? ==> key.value == stackName + "-" + o.name)
  {
    var outputId := stackName + "-" + o.name;
    if o.requestedExport.None? && ShouldExportOutput(o.name) then Some(outputId) else o.requestedExport
  }

  /** Of `outs`, exactly those named in `exported` carry an export key. */
  predicate ExportsExactly(stackName: string, outs: seq<Output>, exported: set<string>)
  {
    forall i :: 0 <= i < |outs| ==> (ExportKey(stackName, outs[i]).Some? <==> outs[i].name in exported)
  }

  lemma ExportsExactlyAppend(stackName: string, a: seq<Output>, b: seq<Output>, exported: set<string>)
    requires ExportsExactly(stackName, a, exported) && ExportsExactly(stackName, b, exported)
    ensures ExportsExactly(stackName, a + b, exported)
  {
    forall i | 0 <= i < |a + b|
      ensures ExportKey(stackName, (a + b)[i]).Some? <==> (a + b)[i].name in exported
    {
      if i >= |a| {
        assert (a + b)[i] == b[i - |a|];
      }
    }
  }

  /** Global tags with the environment placeholder replaced, in dictionary order. */
  function TemplatedTags(tags: Dict, environment: string): (r: seq<Tag>)
    ensures |r| == |tags|
    ensures forall i :: 0 <= i < |tags| ==> r[i] == Tag(tags[i].0, ReplaceAll(tags[i].1, EnvironmentPlaceholder, environment))
  {
    if |tags| == 0 then []
    else
      var last := tags[|tags| - 1];
      TemplatedTags(tags[..|tags| - 1], environment)
        + [Tag(last.0, ReplaceAll(last.1, EnvironmentPlaceholder, environment))]
  }

  /** Environment tags, unchanged, in dictionary order. */
  function PlainTags(tags: Dict): (r: seq<Tag>)
    ensures |r| == |tags|
    ensures forall i :: 0 <= i < |tags| ==> r[i] == Tag(tags[i].0, tags[i].1)
  {
    if |tags| == 0 then [] else PlainTags(tags[..|tags| - 1]) + [Tag(tags[|tags| - 1].0, tags[|tags| - 1].1)]
  }

  function StandardTags(environment: string, stackName: string, g: GlobalConfig): seq<Tag>
  {
    [Tag("Environment", environment), Tag("Stack", stackName),
     Tag("ProjectName", g.projectName), Tag("Organization", g.organization)]
  }

  /** Every tag `_apply_tags` adds, in the order it adds them. */
  function ExpectedTags(g: GlobalConfig, e: EnvironmentConfig, environment: string, stackName: string): seq<Tag>
  {
    TemplatedTags(g.tags, environment) + PlainTags(e.tags) + StandardTags(environment, stackName, g)
  }

  /** The loop of `_apply_tags` over the global tags: each value with the environment
      placeholder replaced, in dictionary order. */
  method TemplateTags(g: Dict, environment: string) returns (added: seq<Tag>)
    ensures added == TemplatedTags(g, environment)
  {
    added := [];
    var i := 0;
    while i < |g|
      invariant 0 <= i <= |g|
      invariant added == TemplatedTags(g[..i], environment)
    {
      var tag := Tag(g[i].0, ReplaceAll(g[i].1, EnvironmentPlaceholder, environment));
      assert g[..i + 1][..i] == g[..i] && g[..i + 1][i] == g[i];
      added := added + [tag];
      i := i + 1;
    }
    assert g[..i] == g;
  }

  /** The loop of `_apply_tags` over the environment tags, copied unchanged. */
  method CopyTags(e: Dict) returns (added: seq<Tag>)
    ensures added == PlainTags(e)
  {
    added := [];
    var j := 0;
    while j < |e|
      invariant 0 <= j <= |e|
      invariant added == PlainTags(e[..j])
    {
      var tag := Tag(e[j].0, e[j].1);
      assert e[..j + 1][..j] == e[..j] && e[..j + 1][j] == e[j];
      added := added + [tag];
      j := j + 1;
    }
    assert e[..j] == e;
  }

  /** Tags are applied as global tags (templated), then environment tags, then the four
      standard tags; the standard ones come last, so a later `add` of the same key wins. */
  lemma TagOrder(g: GlobalConfig, e: EnvironmentConfig, environment: string, stackName: string)
    ensures var r := ExpectedTags(g, e, environment, stackName);
      && |r| == |g.tags| + |e.tags| + 4
      && (forall i :: 0 <= i < |g.tags| ==>
            r[i].key == g.tags[i].0 && r[i].value == ReplaceAll(g.tags[i].1, EnvironmentPlaceholder, environment))
      && (forall i :: 0 <= i < |e.tags| ==> r[|g.tags| + i] == Tag(e.tags[i].0, e.tags[i].1))
      && r[|g.tags| + |e.tags|..] == StandardTags(environment, stackName, g)
  {
    var r := ExpectedTags(g, e, environment, stackName);
    var t, p := TemplatedTags(g.tags, environment), PlainTags(e.tags);
    assert r == t + p + StandardTags(environment, stackName, g);
    forall i | 0 <= i < |e.tags| ensures r[|g.tags| + i] == Tag(e.tags[i].0, e.tags[i].1) {
      assert r[|g.tags| + i] == p[i];
    }
  }

  /** The placeholder itself becomes the environment name; a value without it is kept. */
  lemma PlaceholderSubstitution(value: string, environment: string)
    ensures ReplaceAll(EnvironmentPlaceholder, EnvironmentPlaceholder, environment) == environment
    ensures !Contains(value, EnvironmentPlaceholder) ==> ReplaceAll(value, EnvironmentPlaceholder, environment) == value
  {
    var p := EnvironmentPlaceholder;
    assert p[..|p|] == p;
    assert p[|p|..] == "";
    assert ReplaceAll(p, p, environment) == environment + ReplaceAll("", p, environment);
    if !Contains(value, p) {
      ReplaceAllAbsent(value, p, environment);
    }
  }

  /** The common state of a stack: what `N8nBaseStack.__init__` sets, the tags it
      applied and the outputs the stack adds. */
  class N8nBaseStack {
    const config: N8nConfig
    const environmentName: string
    const stackName: string
    const envConfig: EnvironmentConfig
    const props: StackProps
    const removalPolicy: RemovalPolicy
    var tags: seq<Tag>
    var outputs: seq<Output>

    /** The settings `__init__` resolves for a stack built from these arguments: everything
        but the outputs, which the stacks built on it go on to add. */
    ghost predicate Resolved(config: N8nConfig, environment: string, constructId: string, kwargs: PropOverrides)
      reads this
    {
      && environment in config.environments
      && this.config == config && environmentName == environment
      && stackName == StackNameFor(constructId, kwargs)
      && envConfig == config.environments[environment]
      && props == ResolveStackProps(constructId, environment, kwargs)
      && removalPolicy == RemovalPolicyFor(environment)
      && tags == ExpectedTags(config.globalConfig, envConfig, environment, stackName)
    }

    /** The state `__init__` leaves for a stack built from these arguments. */
    ghost predicate Initialized(config: N8nConfig, environment: string, constructId: string, kwargs: PropOverrides)
      reads this
    {
      Resolved(config, environment, constructId, kwargs) && outputs == []
    }

    /** `__init__` once the environment is known to exist. */
    constructor (config: N8nConfig, environment: string, constructId: string, kwargs: PropOverrides)
      requires environment in config.environments
      ensures Initialized(config, environment, constructId, kwargs)
    {
      this.config := config;
      this.environmentName := environment;
      this.stackName := StackNameFor(constructId, kwargs);
      this.envConfig := config.environments[environment];
      this.props := ResolveStackProps(constructId, environment, kwargs);
      this.removalPolicy := RemovalPolicyFor(environment);
      this.tags := [];
      this.outputs := [];
      new;
      ApplyTags();
    }

    /** `_apply_tags`: adds the global, environment and standard tags one by one. */
    method ApplyTags()
      modifies this`tags
      ensures tags == old(tags) + ExpectedTags(config.globalConfig, envConfig, environmentName, stackName)
    {
      var environment := environmentName;
      var templated := TemplateTags(config.globalConfig.tags, environment);
      var plain := CopyTags(envConfig.tags);
      var added := templated + plain;
      ghost var front := added;
      added := added + [Tag("Environment", environment)];
      added := added + [Tag("Stack", stackName)];
      added := added + [Tag("ProjectName", config.globalConfig.projectName)];
      added := added + [Tag("Organization", config.globalConfig.organization)];
      assert added == front + StandardTags(environment, stackName, config.globalConfig);
      tags := tags + added;
    }

    /** `get_resource_name`: project, environment, type and (when non-empty) name, joined by "-". */
    function GetResourceName(resourceType: string, name: string): (r: string)
      ensures name == "" ==> r == config.globalConfig.projectName + "-" + environmentName + "-" + resourceType
      ensures name != "" ==> r == config.globalConfig.projectName + "-" + environmentName + "-" + resourceType + "-" + name
    {
      var project := config.globalConfig.projectName;
      JoinCons("-", project, [environmentName, resourceType]);
      JoinCons("-", environmentName, [resourceType]);
      JoinCons("-", project, [environmentName, resourceType, name]);
      JoinCons("-", environmentName, [resourceType, name]);
      JoinCons("-", resourceType, [name]);
      if name != "" then Join("-", [project, environmentName, resourceType, name])
      else Join("-", [project, environmentName, resourceType])
    }

    /** `stack_prefix` */
    function StackPrefix(): string
    {
      config.globalConfig.projectName + "-" + environmentName
    }

    /** `add_output`: records one more output of this stack. */
    method AddOutput(name: string, value: Value, description: string, exportName: Option<string>)
      modifies this`outputs
      ensures outputs == old(outputs) + [MakeOutput(stackName, name, value, description, exportName)]
    {
      outputs := outputs + [MakeOutput(stackName, name, value, description, exportName)];
    }

    /** `get_shared_resource`: the identifier registered under (category, name), if any. */
    function GetSharedResource(category: string, name: string): (r: Option<string>)
      ensures r.Some? <==>
        (config.sharedResources.Some? && category in config.sharedResources.value
         && name in config.sharedResources.value[category])
      ensures r.Some? ==> r.value == config.sharedResources.value[category][name]
    {
      if config.sharedResources.None? then None
      else
        var categoryResources := if category in config.sharedResources.value
                                 then config.sharedResources.value[category] else map[];
        if |categoryResources| > 0 && name in categoryResources then Some(categoryResources[name])
        else None
    }

    /** The value a cost-allocation key takes: the global tag if set, else the environment tag. */
    function CostTagValue(key: string): Option<string>
    {
      var g := Lookup(config.globalConfig.tags, key);
      if g.Some? then g else Lookup(envConfig.tags, key)
    }

    /** `get_cost_allocation_tags`: exactly the configured keys that have a tag value,
        the global value winning over the environment one. */
    method GetCostAllocationTags() returns (costTags: map<string, string>)
      ensures forall key :: key in costTags <==>
        (key in config.globalConfig.costAllocationTags && CostTagValue(key).Some?)
      ensures forall key :: key in costTags ==> costTags[key] == CostTagValue(key).value
      ensures forall key :: key in costTags && Lookup(config.globalConfig.tags, key).Some? ==>
        costTags[key] == Lookup(config.globalConfig.tags, key).value
    {
      costTags := map[];
      var keys := config.globalConfig.costAllocationTags;
      var i := 0;
      while i < |keys|
        invariant 0 <= i <= |keys|
        invariant forall key :: key in costTags <==> (key in keys[..i] && CostTagValue(key).Some?)
        invariant forall key :: key in costTags ==> costTags[key] == CostTagValue(key).value
      {
        var tagKey := keys[i];
        var fromGlobal := Lookup(config.globalConfig.tags, tagKey);
        var fromEnv := Lookup(envConfig.tags, tagKey);
        if |config.globalConfig.tags| > 0 && fromGlobal.Some? {
          costTags := costTags[tagKey := fromGlobal.value];
        } else if |envConfig.tags| > 0 && fromEnv.Some? {
          costTags := costTags[tagKey := fromEnv.value];
        }
        assert keys[..i + 1] == keys[..i] + [tagKey];
        i := i + 1;
      }
      assert keys[..i] == keys;
    }

    /** `get_component_enabled`: false without features; otherwise membership in
        features["components"] (a missing key reads as an empty list). */
    function GetComponentEnabled(component: string): (r: Result<bool>)
      ensures r == Success(true) <==>
        (var f := envConfig.settings.features;
         "components" in f && f["components"].Names? && component in f["components"].names)
      ensures r.Failure? <==>
        (var f := envConfig.settings.features; "components" in f && f["components"].Flag?)
    {
      var features := envConfig.settings.features;
      if |features| == 0 then Success(false)
      else if "components" !in features then Success(false)
      else
        match features["components"]
        case Names(components) => Success(component in components)
        case Flag(_) => Failure(NotAContainer("components"))
    }

    /** `is_spot_enabled`: a Fargate block with a positive spot percentage. */
    predicate IsSpotEnabled()
    {
      envConfig.settings.fargate.Some? && envConfig.settings.fargate.value.spotPercentage > 0
    }
  }

  /** `N8nBaseStack.__init__`, including its error for an unknown environment. */
  method NewBaseStack(config: N8nConfig, environment: string, constructId: string, kwargs: PropOverrides)
    returns (r: Result<N8nBaseStack>)
    ensures r.Failure? <==> environment !in config.environments
    ensures r.Failure? ==> r.error == EnvironmentNotFound(environment)
    ensures r.Success? ==> fresh(r.value) && r.value.Initialized(config, environment, constructId, kwargs)
  {
    if environment !in config.environments {
      return Failure(EnvironmentNotFound(environment));
    }
    var stack := new N8nBaseStack(config, environment, constructId, kwargs);
    return Success(stack);
  }

  /** The resource names and prefix the unit tests expect for project "test-n8n", environment "test". */
  lemma NamingExamples(b: N8nBaseStack)
    requires b.config.globalConfig.projectName == "test-n8n" && b.environmentName == "test"
    ensures b.GetResourceName("vpc", "") == "test-n8n-test-vpc"
    ensures b.GetResourceName("vpc", "main") == "test-n8n-test-vpc-main"
    ensures b.GetResourceName("sg", "n8n") == "test-n8n-test-sg-n8n"
    ensures b.StackPrefix() == "test-n8n-test"
  {
  }

  /** Every resource name starts with the stack prefix and a "-". */
  lemma ResourceNamesStartWithPrefix(b: N8nBaseStack, resourceType: string, name: string)
    ensures var prefix := b.StackPrefix() + "-";
      |prefix| <= |b.GetResourceName(resourceType, name)|
      && b.GetResourceName(resourceType, name)[..|prefix|] == prefix
  {
  }
}
