/** `ComputeStack`: the ECS cluster around the n8n Fargate service, with its
    dependencies, the gated tunnel sidecar, autoscaling and resilience steps,
    and the compute outputs. */
module Compute {
  import opened Common
  import opened Config
  import opened Resources
  import opened BaseStack
  import opened Network

  /** The storage stack's handles the compute stack uses (the storage stack is not part of this model). */
  datatype StorageHandle = StorageHandle(stackName: string, fileSystemId: Value, accessPointId: Value)

  /** What the Fargate service construct reports: its Cloud Map service, if it registered one. */
  datatype ServiceHandle = ServiceHandle(cloudMapServiceName: Option<Value>)

  datatype EcsCluster = EcsCluster(clusterName: string, containerInsights: bool)

  /** The access policy handed to the tunnel configuration when access control is enabled. */
  datatype AccessPolicy = AccessPolicy(enabled: bool, allowedEmails: seq<string>, allowedDomains: seq<string>)

  datatype TunnelConfig = TunnelConfig(
    tunnelName: string,
    tunnelDomain: string,
    serviceUrl: string,
    tokenSecretName: string,
    accessPolicy: Option<AccessPolicy>)

  datatype ScalableTarget = ScalableTarget(minCapacity: int, maxCapacity: int)

  /** A step of a step-scaling policy: from metric value `lower` on, change the task count by `change`. */
  datatype ScalingStep = ScalingStep(lower: int, change: int)

  datatype ScalingPolicy =
    | CpuTarget(targetUtilizationPercent: int, scaleInCooldownSeconds: int, scaleOutCooldownSeconds: int)
    | MemoryStep(steps: seq<ScalingStep>, cooldownSeconds: int)

  /** The tunnel gate of `__init__`: an access block of type CLOUDFLARE with a cloudflare block. */
  predicate TunnelEnabled(settings: Settings)
  {
    settings.access.Some? && settings.access.value.accessType == Cloudflare && settings.access.value.cloudflare.Some?
  }

  /** The autoscaling gate of `__init__`: a scaling block whose maximum exceeds its minimum. */
  predicate AutoscalingEnabled(settings: Settings)
  {
    settings.scaling.Some? && settings.scaling.value.maxTasks > settings.scaling.value.minTasks
  }

  /** The resilience gate of `__init__`: `features.get("resilience_enabled", False)` is truthy. */
  predicate ResilienceEnabled(features: map<string, FeatureValue>)
  {
    |features| > 0 && "resilience_enabled" in features && Truthy(features["resilience_enabled"])
  }

  /** Equal task bounds, or a missing scaling block, leave the service unscaled. */
  lemma NoScalingWithoutRange(settings: Settings)
    ensures settings.scaling.None? ==> !AutoscalingEnabled(settings)
    ensures settings.scaling.Some? && settings.scaling.value.maxTasks <= settings.scaling.value.minTasks
      ==> !AutoscalingEnabled(settings)
  {
  }

  /** `_should_enable_container_insights` */
  function ContainerInsights(environment: string, settings: Settings): (enabled: bool)
    ensures settings.monitoring.Some? ==> enabled == settings.monitoring.value.enableContainerInsights
    ensures settings.monitoring.None? ==> (enabled <==> IsProduction(environment))
  {
    if settings.monitoring.Some? then settings.monitoring.value.enableContainerInsights
    else IsProduction(environment)
  }

  /** The tunnel configuration of `_setup_cloudflare_tunnel`: configured names win, else
      "n8n-{env}" and "n8n-{env}.example.com"; the access policy only when enabled. */
  function TunnelSettings(environment: string, cf: CloudflareConfig): (t: TunnelConfig)
    ensures cf.tunnelName != "" ==> t.tunnelName == cf.tunnelName
    ensures cf.tunnelName == "" ==> t.tunnelName == "n8n-" + environment
    ensures cf.tunnelDomain != "" ==> t.tunnelDomain == cf.tunnelDomain
    ensures cf.tunnelDomain == "" ==> t.tunnelDomain == "n8n-" + environment + ".example.com"
    ensures t.serviceUrl == "http://localhost:5678" && t.tokenSecretName == cf.tunnelTokenSecretName
    ensures t.accessPolicy.Some? <==> cf.accessEnabled
    ensures t.accessPolicy.Some? ==>
      t.accessPolicy.value == AccessPolicy(true, cf.accessAllowedEmails, cf.accessAllowedDomains)
  {
    var name := if cf.tunnelName != "" then cf.tunnelName else "n8n-" + environment;
    var domain := if cf.tunnelDomain != "" then cf.tunnelDomain else "n8n-" + environment + ".example.com";
    TunnelConfig(name, domain, "http://localhost:5678", cf.tunnelTokenSecretName,
                 if cf.accessEnabled
                 then Some(AccessPolicy(cf.accessEnabled, cf.accessAllowedEmails, cf.accessAllowedDomains))
                 else None)
  }

  /** The default domain extends the default name. */
  lemma DefaultDomainExtendsName(environment: string, cf: CloudflareConfig)
    requires cf.tunnelName == "" && cf.tunnelDomain == ""
    ensures var t := TunnelSettings(environment, cf);
      t.tunnelDomain == t.tunnelName + ".example.com"
  {
  }

  const MemorySteps := [ScalingStep(80, 1), ScalingStep(90, 2)]

  /** The policies `_setup_auto_scaling` attaches, in order: the CPU target policy, then in
      production a memory step policy. */
  function ScalingPolicies(environment: string, scaling: ScalingConfig): (policies: seq<ScalingPolicy>)
    ensures |policies| >= 1
    ensures policies[0] == CpuTarget(scaling.targetCpuUtilization, scaling.scaleInCooldown, scaling.scaleOutCooldown)
    ensures |policies| == 2 <==> IsProduction(environment)
    ensures |policies| <= 2
    ensures |policies| == 2 ==> policies[1] == MemoryStep(MemorySteps, 300)
  {
    [CpuTarget(scaling.targetCpuUtilization, scaling.scaleInCooldown, scaling.scaleOutCooldown)]
    + (if IsProduction(environment) then [MemoryStep(MemorySteps, 300)] else [])
  }

  /** The three container variables `_add_resilience_mechanisms` sets, in order. */
  const ResilienceVariables: seq<(string, Value)> := [
    ("WEBHOOK_DLQ_URL", Attr("ResilientN8n", "WebhookDlqUrl")),
    ("WORKFLOW_DLQ_URL", Attr("ResilientN8n", "WorkflowDlqUrl")),
    ("CIRCUIT_BREAKER_FUNCTION", Attr("ResilientN8n", "CircuitBreakerFunctionName"))
  ]

  /** The Cloudflare outputs are added when the access type is CLOUDFLARE and a tunnel was configured. */
  predicate TunnelOutputsWanted(settings: Settings, tunnel: Option<TunnelConfig>)
  {
    settings.access.Some? && settings.access.value.accessType == Cloudflare && tunnel.Some?
  }

  /** `_add_outputs`, in the order the stack adds them. */
  function ComputeOutputs(stackName: string, service: ServiceHandle, settings: Settings,
                          tunnel: Option<TunnelConfig>): seq<Output>
  {
    FixedComputeOutputs(stackName) + ServiceOutputs(stackName, service) + OptionalTunnelOutputs(stackName, settings, tunnel)
  }

  /** The service discovery name, when the service registered in Cloud Map, then the log group. */
  function ServiceOutputs(stackName: string, service: ServiceHandle): seq<Output>
  {
    DiscoveryOutputs(stackName, service) + [LogGroupOutput(stackName)]
  }

  function OptionalTunnelOutputs(stackName: string, settings: Settings, tunnel: Option<TunnelConfig>): seq<Output>
  {
    if TunnelOutputsWanted(settings, tunnel) then TunnelOutputs(stackName, tunnel.value) else []
  }

  /** Appending three lists one after the other appends their concatenation. */
  lemma AppendThree(o: seq<Output>, a: seq<Output>, b: seq<Output>, c: seq<Output>)
    ensures o + a + b + c == o + (a + b + c)
  {
  }

  function FixedComputeOutputs(stackName: string): seq<Output>
  {
    [MakeOutput(stackName, "ClusterName", Attr("Cluster", "ClusterName"), "ECS cluster name", None),
     MakeOutput(stackName, "ClusterArn", Attr("Cluster", "ClusterArn"), "ECS cluster ARN", None),
     MakeOutput(stackName, "ServiceName", Attr("N8nService", "ServiceName"), "n8n service name", None),
     MakeOutput(stackName, "ServiceArn", Attr("N8nService", "ServiceArn"), "n8n service ARN", None),
     MakeOutput(stackName, "TaskDefinitionArn", Attr("N8nService", "TaskDefinitionArn"), "Task definition ARN", None)]
  }

  function DiscoveryOutputs(stackName: string, service: ServiceHandle): seq<Output>
  {
    if service.cloudMapServiceName.Some?
    then [MakeOutput(stackName, "ServiceDiscoveryName", service.cloudMapServiceName.value, "Service discovery name", None)]
    else []
  }

  function LogGroupOutput(stackName: string): Output
  {
    MakeOutput(stackName, "LogGroupName", Attr("N8nService", "LogGroupName"), "CloudWatch log group name", None)
  }

  function TunnelOutputs(stackName: string, t: TunnelConfig): seq<Output>
  {
    [MakeOutput(stackName, "CloudflareTunnelName", Lit(t.tunnelName), "Cloudflare tunnel name", None),
     MakeOutput(stackName, "CloudflareTunnelDomain", Lit(t.tunnelDomain), "Cloudflare tunnel domain", None),
     MakeOutput(stackName, "CloudflareTunnelSecretArn", Attr("CloudflareConfig", "TunnelSecretArn"),
                "Cloudflare tunnel token secret ARN", None)]
  }

  /** The output names in order: the five fixed ones, ServiceDiscoveryName exactly when
      the service registered in Cloud Map, LogGroupName, then the three tunnel outputs
      exactly when the tunnel outputs are wanted. */
  lemma ComputeOutputNames(stackName: string, service: ServiceHandle, settings: Settings, tunnel: Option<TunnelConfig>)
    ensures OutputNames(ComputeOutputs(stackName, service, settings, tunnel))
      == ["ClusterName", "ClusterArn", "ServiceName", "ServiceArn", "TaskDefinitionArn"]
         + ((if service.cloudMapServiceName.Some? then ["ServiceDiscoveryName"] else []) + ["LogGroupName"])
         + (if TunnelOutputsWanted(settings, tunnel)
            then ["CloudflareTunnelName", "CloudflareTunnelDomain", "CloudflareTunnelSecretArn"] else [])
  {
    var fixed, svc := FixedComputeOutputs(stackName), ServiceOutputs(stackName, service);
    var tail := OptionalTunnelOutputs(stackName, settings, tunnel);
    FixedOutputNames(stackName);
    ServiceOutputNames(stackName, service);
    TunnelOutputNames(stackName, settings, tunnel);
    OutputNamesAppend(fixed, svc);
    OutputNamesAppend(fixed + svc, tail);
  }

  lemma FixedOutputNames(stackName: string)
    ensures OutputNames(FixedComputeOutputs(stackName))
      == ["ClusterName", "ClusterArn", "ServiceName", "ServiceArn", "TaskDefinitionArn"]
  {
  }

  lemma ServiceOutputNames(stackName: string, service: ServiceHandle)
    ensures OutputNames(ServiceOutputs(stackName, service))
      == (if service.cloudMapServiceName.Some? then ["ServiceDiscoveryName"] else []) + ["LogGroupName"]
  {
    OutputNamesAppend(DiscoveryOutputs(stackName, service), [LogGroupOutput(stackName)]);
  }

  lemma TunnelOutputNames(stackName: string, settings: Settings, tunnel: Option<TunnelConfig>)
    ensures OutputNames(OptionalTunnelOutputs(stackName, settings, tunnel))
      == if TunnelOutputsWanted(settings, tunnel)
         then ["CloudflareTunnelName", "CloudflareTunnelDomain", "CloudflareTunnelSecretArn"] else []
  {
  }

  lemma ClusterArnExportable()
    ensures ShouldExportOutput("ClusterArn")
  {
    ExportableBy("ClusterArn", 3, 0);
  }

  lemma ClusterNameNotExportable()
    ensures !ShouldExportOutput("ClusterName")
  {
    NotExportable("ClusterName", "VSSASLADF");
  }

  lemma ServiceNameNotExportable()
    ensures !ShouldExportOutput("ServiceName")
  {
    NotExportable("ServiceName", "VuuCALADF");
  }

  lemma TaskDefinitionArnNotExportable()
    ensures !ShouldExportOutput("TaskDefinitionArn")
  {
    NotExportable("TaskDefinitionArn", "VSSCSLpbF");
  }

  lemma LogGroupNameNotExportable()
    ensures !ShouldExportOutput("LogGroupName")
  {
    NotExportable("LogGroupName", "VSSCSdADF");
  }

  lemma ServiceDiscoveryNameNotExportable()
    ensures !ShouldExportOutput("ServiceDiscoveryName")
  {
    NotExportable("ServiceDiscoveryName", "VuuCALAtF");
  }

  lemma TunnelNameNotExportable()
    ensures !ShouldExportOutput("CloudflareTunnelName")
  {
    NotExportable("CloudflareTunnelName", "VSSsSLADF");
  }

  lemma TunnelDomainNotExportable()
    ensures !ShouldExportOutput("CloudflareTunnelDomain")
  {
    NotExportable("CloudflareTunnelDomain", "VSSsSLAtF");
  }

  lemma TunnelSecretArnNotExportable()
    ensures !ShouldExportOutput("CloudflareTunnelSecretArn")
  {
    NotExportable("CloudflareTunnelSecretArn", "VbisvLpDF");
  }

  /** The names of the compute outputs that carry an export key. */
  const ComputeExports := {"ClusterArn", "ServiceArn"}

  lemma FixedOutputsExport(stackName: string)
    ensures ExportsExactly(stackName, FixedComputeOutputs(stackName), ComputeExports)
  {
    ClusterNameNotExportable();
    ClusterArnExportable();
    ServiceNameNotExportable();
    ServiceArnExported();
    TaskDefinitionArnNotExportable();
  }

  lemma TunnelOutputsExport(stackName: string, t: TunnelConfig)
    ensures ExportsExactly(stackName, TunnelOutputs(stackName, t), ComputeExports)
  {
    TunnelNameNotExportable();
    TunnelDomainNotExportable();
    TunnelSecretArnNotExportable();
  }

  /** Exactly the ClusterArn and ServiceArn outputs carry an export key. */
  lemma ComputeOutputsExport(stackName: string, service: ServiceHandle, settings: Settings, tunnel: Option<TunnelConfig>)
    ensures ExportsExactly(stackName, ComputeOutputs(stackName, service, settings, tunnel), ComputeExports)
  {
    var fixed, disc := FixedComputeOutputs(stackName), DiscoveryOutputs(stackName, service);
    var log, tail := [LogGroupOutput(stackName)], OptionalTunnelOutputs(stackName, settings, tunnel);
    FixedOutputsExport(stackName);
    ServiceDiscoveryNameNotExportable();
    LogGroupNameNotExportable();
    if TunnelOutputsWanted(settings, tunnel) {
      TunnelOutputsExport(stackName, tunnel.value);
    }
    ExportsExactlyAppend(stackName, disc, log, ComputeExports);
    ExportsExactlyAppend(stackName, fixed, disc + log, ComputeExports);
    ExportsExactlyAppend(stackName, fixed + (disc + log), tail, ComputeExports);
  }

  /** The compute stack: dependencies, cluster, and what the gated steps attached. */
  class ComputeStack {
    const base: N8nBaseStack
    const network: NetworkStack
    const storage: StorageHandle
    const service: ServiceHandle
    const cluster: EcsCluster
    var dependencies: seq<string>
    var tunnel: Option<TunnelConfig>
    var scalableTarget: Option<ScalableTarget>
    var scalingPolicies: seq<ScalingPolicy>
    var resilienceTopicName: Option<string>
    var containerEnvironment: seq<(string, Value)>

    /** `__init__` after the base stack. */
    constructor (b: N8nBaseStack, network: NetworkStack, storage: StorageHandle, service: ServiceHandle)
      modifies b`outputs
      ensures base == b && this.network == network && this.storage == storage && this.service == service
      ensures Built()
      ensures b.outputs == old(b.outputs) + ComputeOutputs(b.stackName, service, b.envConfig.settings, tunnel)
    {
      base := b;
      this.network := network;
      this.storage := storage;
      this.service := service;
      cluster := EcsCluster(b.GetResourceName("ecs-cluster", ""), ContainerInsights(b.environmentName, b.envConfig.settings));
      dependencies := [];
      tunnel := None;
      scalableTarget := None;
      scalingPolicies := [];
      resilienceTopicName := None;
      containerEnvironment := [];
      new;
      AddDependency(network.stackName);
      AddDependency(storage.stackName);
      ApplyGates();
      AddOutputs();
    }

    /** What `__init__` leaves besides the outputs: the dependencies on the network and
        storage stacks, the named cluster, and the gated steps. */
    ghost predicate Built()
      reads this
    {
      && dependencies == [network.stackName, storage.stackName]
      && cluster == EcsCluster(base.GetResourceName("ecs-cluster", ""),
                               ContainerInsights(base.environmentName, base.envConfig.settings))
      && GatesApplied()
    }

    /** What the gated steps of `__init__` leave behind: the tunnel exactly when its gate
        is open, the scalable target and its policies exactly when the task range is
        non-empty, the alert topic and container variables exactly when resilience is on. */
    ghost predicate GatesApplied()
      reads this
    {
      TunnelGateApplied() && ScalingGateApplied() && ResilienceGateApplied()
    }

    ghost predicate TunnelGateApplied()
      reads this
    {
      var settings := base.envConfig.settings;
      && (TunnelEnabled(settings) ==>
            tunnel == Some(TunnelSettings(base.environmentName, settings.access.value.cloudflare.value)))
      && (!TunnelEnabled(settings) ==> tunnel == None)
    }

    ghost predicate ScalingGateApplied()
      reads this
    {
      var settings := base.envConfig.settings;
      && (AutoscalingEnabled(settings) ==>
            scalableTarget == Some(ScalableTarget(settings.scaling.value.minTasks, settings.scaling.value.maxTasks))
            && scalingPolicies == ScalingPolicies(base.environmentName, settings.scaling.value))
      && (!AutoscalingEnabled(settings) ==> scalableTarget == None && scalingPolicies == [])
    }

    ghost predicate ResilienceGateApplied()
      reads this
    {
      var settings := base.envConfig.settings;
      && (ResilienceEnabled(settings.features) ==>
            resilienceTopicName == Some(base.GetResourceName("resilience-alerts", ""))
            && containerEnvironment == ResilienceVariables)
      && (!ResilienceEnabled(settings.features) ==> resilienceTopicName == None && containerEnvironment == [])
    }

    /** The tunnel, autoscaling and resilience steps of `__init__`, each behind its gate. */
    method ApplyGates()
      requires tunnel == None && scalableTarget == None && scalingPolicies == []
      requires resilienceTopicName == None && containerEnvironment == []
      modifies this`tunnel, this`scalableTarget, this`scalingPolicies, this`resilienceTopicName,
               this`containerEnvironment
      ensures GatesApplied()
    {
      var settings := base.envConfig.settings;
      if TunnelEnabled(settings) {
        SetupCloudflareTunnel();
      }
      if AutoscalingEnabled(settings) {
        SetupAutoScaling();
      }
      if ResilienceEnabled(settings.features) {
        AddResilienceMechanisms();
      }
    }

    /** `add_dependency` */
    method AddDependency(stackName: string)
      modifies this`dependencies
      ensures dependencies == old(dependencies) + [stackName]
    {
      dependencies := dependencies + [stackName];
    }

    /** `_setup_cloudflare_tunnel` */
    method SetupCloudflareTunnel()
      requires TunnelEnabled(base.envConfig.settings)
      modifies this`tunnel
      ensures tunnel == Some(TunnelSettings(base.environmentName, base.envConfig.settings.access.value.cloudflare.value))
    {
      tunnel := Some(TunnelSettings(base.environmentName, base.envConfig.settings.access.value.cloudflare.value));
    }

    /** `_setup_auto_scaling`: the scalable target, then its policies one by one. */
    method SetupAutoScaling()
      requires base.envConfig.settings.scaling.Some?
      modifies this`scalableTarget, this`scalingPolicies
      ensures var scaling := base.envConfig.settings.scaling.value;
        && scalableTarget == Some(ScalableTarget(scaling.minTasks, scaling.maxTasks))
        && scalingPolicies == old(scalingPolicies) + ScalingPolicies(base.environmentName, scaling)
    {
      var scaling := base.envConfig.settings.scaling.value;
      scalableTarget := Some(ScalableTarget(scaling.minTasks, scaling.maxTasks));
      scalingPolicies := scalingPolicies
        + [CpuTarget(scaling.targetCpuUtilization, scaling.scaleInCooldown, scaling.scaleOutCooldown)];
      if IsProduction(base.environmentName) {
        scalingPolicies := scalingPolicies + [MemoryStep(MemorySteps, 300)];
      }
    }

    /** `add_environment` on the service's default container. */
    method AddEnvironment(name: string, value: Value)
      modifies this`containerEnvironment
      ensures containerEnvironment == old(containerEnvironment) + [(name, value)]
    {
      containerEnvironment := containerEnvironment + [(name, value)];
    }

    /** `_add_resilience_mechanisms`: the alert topic, then the three container variables. */
    method AddResilienceMechanisms()
      modifies this`resilienceTopicName, this`containerEnvironment
      ensures resilienceTopicName == Some(base.GetResourceName("resilience-alerts", ""))
      ensures containerEnvironment == old(containerEnvironment) + ResilienceVariables
    {
      resilienceTopicName := Some(base.GetResourceName("resilience-alerts", ""));
      AddEnvironment("WEBHOOK_DLQ_URL", Attr("ResilientN8n", "WebhookDlqUrl"));
      AddEnvironment("WORKFLOW_DLQ_URL", Attr("ResilientN8n", "WorkflowDlqUrl"));
      AddEnvironment("CIRCUIT_BREAKER_FUNCTION", Attr("ResilientN8n", "CircuitBreakerFunctionName"));
    }

    /** `_add_outputs` */
    method AddOutputs()
      modifies base`outputs
      ensures base.outputs == old(base.outputs) + ComputeOutputs(base.stackName, service, base.envConfig.settings, tunnel)
    {
      var b := base;
      ghost var before := b.outputs;
      AddFixedOutputs();
      AddServiceOutputs();
      ghost var tail := OptionalTunnelOutputs(b.stackName, b.envConfig.settings, tunnel);
      if TunnelOutputsWanted(b.envConfig.settings, tunnel) {
        AddTunnelOutputs(tunnel.value);
      } else {
        assert b.outputs + tail == b.outputs;
      }
      AppendThree(before, FixedComputeOutputs(b.stackName), ServiceOutputs(b.stackName, service), tail);
    }

    method AddServiceOutputs()
      modifies base`outputs
      ensures base.outputs == old(base.outputs) + ServiceOutputs(base.stackName, service)
    {
      var b := base;
      if service.cloudMapServiceName.Some? {
        b.AddOutput("ServiceDiscoveryName", service.cloudMapServiceName.value, "Service discovery name", None);
      }
      b.AddOutput("LogGroupName", Attr("N8nService", "LogGroupName"), "CloudWatch log group name", None);
    }

    method AddFixedOutputs()
      modifies base`outputs
      ensures base.outputs == old(base.outputs) + FixedComputeOutputs(base.stackName)
    {
      var b := base;
      b.AddOutput("ClusterName", Attr("Cluster", "ClusterName"), "ECS cluster name", None);
      b.AddOutput("ClusterArn", Attr("Cluster", "ClusterArn"), "ECS cluster ARN", None);
      b.AddOutput("ServiceName", Attr("N8nService", "ServiceName"), "n8n service name", None);
      b.AddOutput("ServiceArn", Attr("N8nService", "ServiceArn"), "n8n service ARN", None);
      b.AddOutput("TaskDefinitionArn", Attr("N8nService", "TaskDefinitionArn"), "Task definition ARN", None);
    }

    method AddTunnelOutputs(t: TunnelConfig)
      modifies base`outputs
      ensures base.outputs == old(base.outputs) + TunnelOutputs(base.stackName, t)
    {
      var b := base;
      b.AddOutput("CloudflareTunnelName", Lit(t.tunnelName), "Cloudflare tunnel name", None);
      b.AddOutput("CloudflareTunnelDomain", Lit(t.tunnelDomain), "Cloudflare tunnel domain", None);
      b.AddOutput("CloudflareTunnelSecretArn", Attr("CloudflareConfig", "TunnelSecretArn"),
                  "Cloudflare tunnel token secret ARN", None);
    }

    /** `service_security_group`: the network stack's app group itself, not a copy. */
    function ServiceSecurityGroup(): (g: SecurityGroup)
      reads this
      ensures g == network.n8nSecurityGroup
    {
      network.n8nSecurityGroup
    }
  }

  /** `ComputeStack(...)`: the environment error, else the stack. */
  method NewComputeStack(config: N8nConfig, environment: string, constructId: string, kwargs: PropOverrides,
                         network: NetworkStack, storage: StorageHandle, service: ServiceHandle)
    returns (r: Result<ComputeStack>)
    ensures r.Failure? <==> environment !in config.environments
    ensures r.Failure? ==> r.error == EnvironmentNotFound(environment)
    ensures r.Success? ==>
      && fresh(r.value) && fresh(r.value.base)
      && r.value.base.Resolved(config, environment, constructId, kwargs)
      && r.value.network == network && r.value.storage == storage && r.value.service == service
      && r.value.Built()
      && r.value.base.outputs == ComputeOutputs(r.value.base.stackName, service, r.value.base.envConfig.settings,
                                                r.value.tunnel)
  {
    var b := NewBaseStack(config, environment, constructId, kwargs);
    if b.Failure? {
      return Failure(b.error);
    }
    var stack := new ComputeStack(b.value, network, storage, service);
    return Success(stack);
  }
}
