/** `NetworkStack`: create a VPC or import one, choose the workload subnets,
    create the two security groups and emit the network outputs. */
module Network {
  import opened Common
  import opened Config
  import opened Resources
  import opened BaseStack

  datatype SubnetType = Public | PrivateWithEgress

  datatype SubnetTier = SubnetTier(name: string, subnetType: SubnetType, cidrMask: nat)

  /** A subnet handle: the construct that holds it, its id and its availability zone. */
  datatype Subnet = Subnet(constructId: string, subnetId: Value, availabilityZone: Value)

  /** The subnets the provider reports for the VPC the stack ends up with: for a created
      VPC, the subnets it would place in the public and in the private tier. */
  datatype ProvisionedVpc = ProvisionedVpc(publicSubnets: seq<Subnet>, privateSubnets: seq<Subnet>)

  /** The VPC a network stack holds: one it created, or one looked up by id. */
  datatype Vpc =
    | CreatedVpc(vpcName: string, cidr: string, maxAzs: nat, natGateways: int,
                 tiers: seq<SubnetTier>, rejectFlowLog: bool, subnets: ProvisionedVpc)
    | ImportedVpc(vpcId: string, subnets: ProvisionedVpc)

  /** The VPC id as a value: a token of the created VPC, else the id it was looked up by. */
  function VpcIdValue(vpc: Vpc): Value
  {
    match vpc
    case CreatedVpc(_, _, _, _, _, _, _) => Attr("Vpc", "VpcId")
    case ImportedVpc(id, _) => Lit(id)
  }

  /** The VPC's CIDR block, resolved by the provider. */
  function VpcCidrBlock(vpc: Vpc): Value
  {
    if vpc.CreatedVpc? then Attr("Vpc", "VpcCidrBlock") else Attr("ImportedVpc", "VpcCidrBlock")
  }

  const PublicTier := SubnetTier("Public", Public, 24)
  const PrivateTier := SubnetTier("Private", PrivateWithEgress, 24)

  /** The subnet tiers of a created VPC: a private tier only when there are NAT gateways. */
  function SubnetTiers(natGateways: int): (tiers: seq<SubnetTier>)
    ensures |tiers| >= 1 && tiers[0] == PublicTier
    ensures PrivateTier in tiers <==> natGateways > 0
    ensures |tiers| == (if natGateways > 0 then 2 else 1)
    ensures forall i :: 0 <= i < |tiers| ==> tiers[i].cidrMask == 24
  {
    if natGateways > 0 then [PublicTier, PrivateTier] else [PublicTier]
  }

  /** `_get_max_azs`: the configured zone count, else a default by environment. */
  function MaxAzs(environment: string, availabilityZones: seq<string>): (n: nat)
    ensures |availabilityZones| > 0 ==> n == |availabilityZones|
    ensures |availabilityZones| == 0 && IsProduction(environment) ==> n == 3
    ensures |availabilityZones| == 0 && !IsProduction(environment) && environment == "staging" ==> n == 2
    ensures |availabilityZones| == 0 && !IsProduction(environment) && environment != "staging" ==> n == 1
    ensures n >= 1
  {
    if |availabilityZones| > 0 then |availabilityZones|
    else if IsProduction(environment) then 3
    else if environment == "staging" then 2
    else 1
  }

  /** The staging default compares the name exactly, unlike the production one. */
  lemma ZoneDefaultsByCase()
    ensures MaxAzs("PROD", []) == 3
    ensures MaxAzs("staging", []) == 2
    ensures MaxAzs("Staging", []) == 1
  {
    assert ToLower("PROD") == "prod";
    assert ToLower("staging") == "staging";
    assert ToLower("Staging") == "staging";
  }

  /** The first list when it is non-empty, else the second. */
  function PreferNonEmpty(first: seq<Subnet>, second: seq<Subnet>): (r: seq<Subnet>)
    ensures |first| > 0 ==> r == first
    ensures |first| == 0 ==> r == second
  {
    if |first| > 0 then first else second
  }

  /** `_get_created_subnets`: private subnets when there are any, else public ones. */
  function CreatedSubnets(vpc: Vpc): (r: seq<Subnet>)
    ensures r == vpc.subnets.privateSubnets || r == vpc.subnets.publicSubnets
    ensures |vpc.subnets.privateSubnets| > 0 <==> (r == vpc.subnets.privateSubnets && |r| > 0)
  {
    PreferNonEmpty(vpc.subnets.privateSubnets, vpc.subnets.publicSubnets)
  }

  /** `_import_vpc`: a lookup by id, which needs the id. */
  function ImportVpc(net: NetworkingConfig, provisioned: ProvisionedVpc): (r: Result<Vpc>)
    ensures r.Failure? <==> net.vpcId == ""
    ensures r.Failure? ==> r.error == MissingField("vpc_id", "use_existing_vpc")
    ensures r.Success? ==> r.value.ImportedVpc? && r.value.vpcId == net.vpcId && r.value.subnets == provisioned
  {
    if net.vpcId == "" then Failure(MissingField("vpc_id", "use_existing_vpc"))
    else Success(ImportedVpc(net.vpcId, provisioned))
  }

  /** `_create_vpc`: named by the stack, tiered by NAT gateways, sized by `MaxAzs`,
      with a REJECT flow log in production. Without a private tier the VPC has no
      private subnets, whatever the provider would have placed there. */
  function CreateVpc(b: N8nBaseStack, net: NetworkingConfig, provisioned: ProvisionedVpc): (vpc: Vpc)
    ensures vpc.CreatedVpc? && vpc.vpcName == b.GetResourceName("vpc", "")
    ensures vpc.rejectFlowLog <==> IsProduction(b.environmentName)
    ensures (PrivateTier in vpc.tiers <==> net.natGateways > 0) && PublicTier in vpc.tiers
    ensures vpc.maxAzs == MaxAzs(b.environmentName, net.availabilityZones)
    ensures vpc.subnets.publicSubnets == provisioned.publicSubnets
    ensures vpc.subnets.privateSubnets == if net.natGateways > 0 then provisioned.privateSubnets else []
  {
    var tiers := SubnetTiers(net.natGateways);
    CreatedVpc(b.GetResourceName("vpc", ""), net.vpcCidr, MaxAzs(b.environmentName, net.availabilityZones),
               net.natGateways, tiers, IsProduction(b.environmentName),
               ProvisionedVpc(provisioned.publicSubnets,
                              if PrivateTier in tiers then provisioned.privateSubnets else []))
  }

  /** With no NAT gateways a created VPC has only public subnets, and the workloads run in
      them; with NAT gateways and private subnets, they run in the private ones. */
  lemma CreatedVpcWorkloadSubnets(b: N8nBaseStack, net: NetworkingConfig, provisioned: ProvisionedVpc)
    ensures net.natGateways <= 0 ==> CreatedSubnets(CreateVpc(b, net, provisioned)) == provisioned.publicSubnets
    ensures net.natGateways > 0 && |provisioned.privateSubnets| > 0 ==>
      CreatedSubnets(CreateVpc(b, net, provisioned)) == provisioned.privateSubnets
  {
  }

  /** The construct id of the subnet imported at position `idx`. */
  function ImportedSubnetId(idx: nat): string
  {
    "ImportedSubnet" + NatToString(idx)
  }

  /** The subnet imported at position `idx` by its id. */
  function ImportedSubnet(idx: nat, subnetId: string): Subnet
  {
    Subnet(ImportedSubnetId(idx), Lit(subnetId), Attr(ImportedSubnetId(idx), "AvailabilityZone"))
  }

  /** The loop of `_import_subnets` and `import_from_outputs`: one subnet per id, in order. */
  method SubnetsFromIds(subnetIds: seq<string>) returns (subnets: seq<Subnet>)
    ensures |subnets| == |subnetIds|
    ensures forall i :: 0 <= i < |subnetIds| ==> subnets[i] == ImportedSubnet(i, subnetIds[i])
  {
    subnets := [];
    var idx := 0;
    while idx < |subnetIds|
      invariant 0 <= idx <= |subnetIds| && |subnets| == idx
      invariant forall i :: 0 <= i < idx ==> subnets[i] == ImportedSubnet(i, subnetIds[i])
    {
      subnets := subnets + [ImportedSubnet(idx, subnetIds[idx])];
      idx := idx + 1;
    }
  }

  /** Distinct positions give distinct subnet construct ids, as the construct tree requires. */
  lemma ImportedSubnetIdsDistinct(i: nat, j: nat)
    requires i != j
    ensures ImportedSubnetId(i) != ImportedSubnetId(j)
  {
    var p := "ImportedSubnet";
    if ImportedSubnetId(i) == ImportedSubnetId(j) {
      assert (p + NatToString(i))[|p|..] == NatToString(i);
      assert (p + NatToString(j))[|p|..] == NatToString(j);
      NatToStringInjective(i, j);
    }
  }

  lemma NatToStringLongForTens(n: nat)
    requires n >= 10
    ensures |NatToString(n)| >= 2
  {
  }

  /** Decimal rendering never maps two numbers to the same string. */
  lemma {:induction false} NatToStringInjective(a: nat, b: nat)
    requires NatToString(a) == NatToString(b)
    ensures a == b
    decreases a
  {
    var sa, sb := NatToString(a), NatToString(b);
    var digits := ['0', '1', '2', '3', '4', '5', '6', '7', '8', '9'];
    assert sa[|sa| - 1] == digits[a % 10];
    assert sb[|sb| - 1] == digits[b % 10];
    assert a % 10 == b % 10;
    if a < 10 && b >= 10 {
      NatToStringLongForTens(b);
    } else if b < 10 && a >= 10 {
      NatToStringLongForTens(a);
    } else if a >= 10 && b >= 10 {
      assert sa[..|sa| - 1] == NatToString(a / 10);
      assert sb[..|sb| - 1] == NatToString(b / 10);
      NatToStringInjective(a / 10, b / 10);
    }
  }

  /** Subnet ids in subnet order. */
  function SubnetIdValues(subnets: seq<Subnet>): (ids: seq<Value>)
    ensures |ids| == |subnets|
    ensures forall i :: 0 <= i < |subnets| ==> ids[i] == subnets[i].subnetId
  {
    seq(|subnets|, i requires 0 <= i < |subnets| => subnets[i].subnetId)
  }

  /** The distinct availability zones of the subnets. */
  function ZoneSet(subnets: seq<Subnet>): (zones: set<Value>)
    ensures forall s :: s in subnets ==> s.availabilityZone in zones
    ensures forall z :: z in zones ==> exists s :: s in subnets && s.availabilityZone == z
  {
    set s | s in subnets :: s.availabilityZone
  }

  /** `_add_outputs`: the outputs in the order the stack adds them. */
  function NetworkOutputs(stackName: string, vpc: Vpc, subnets: seq<Subnet>, n8nGroupId: Value, efsGroupId: Value,
                          useExistingVpc: bool): seq<Output>
  {
    [MakeOutput(stackName, "VpcId", VpcIdValue(vpc), "VPC ID for n8n deployment", None),
     MakeOutput(stackName, "SubnetIds", Joined(",", SubnetIdValues(subnets)), "Subnet IDs for n8n deployment", None),
     MakeOutput(stackName, "N8nSecurityGroupId", n8nGroupId, "Security group ID for n8n tasks", None),
     MakeOutput(stackName, "EfsSecurityGroupId", efsGroupId, "Security group ID for EFS", None)]
    + (if !useExistingVpc
       then [MakeOutput(stackName, "AvailabilityZones", JoinedSet(",", ZoneSet(subnets)), "Availability zones used", None)]
       else [])
  }

  /** The identifier outputs of the network stack all match the export whitelist. */
  lemma NetworkIdsExportable()
    ensures ShouldExportOutput("VpcId") && ShouldExportOutput("SubnetIds")
    ensures ShouldExportOutput("N8nSecurityGroupId") && ShouldExportOutput("EfsSecurityGroupId")
  {
    NetworkNamesExported();
    GroupIdsExportable();
  }

  /** The two group-id outputs contain "SecurityGroupId" after a three-letter prefix. */
  lemma GroupIdsExportable()
    ensures ShouldExportOutput("N8nSecurityGroupId") && ShouldExportOutput("EfsSecurityGroupId")
  {
    assert "N8nSecurityGroupId"[3..] == ExportableOutputs[2];
    ExportableBy("N8nSecurityGroupId", 2, 3);
    assert "EfsSecurityGroupId"[3..] == ExportableOutputs[2];
    ExportableBy("EfsSecurityGroupId", 2, 3);
  }

  /** The zone list matches no whitelist entry. */
  lemma ZonesNotExportable()
    ensures !ShouldExportOutput("AvailabilityZones")
  {
    NotExportable("AvailabilityZones", "VSSCSLpDF");
  }

  /** VpcId, SubnetIds (ids joined by "," in subnet order) and the two group ids are always
      emitted; the zone list is added exactly when the VPC was created. */
  lemma NetworkOutputsPresent(stackName: string, vpc: Vpc, subnets: seq<Subnet>, n8nGroupId: Value,
                              efsGroupId: Value, useExistingVpc: bool)
    ensures var outs := NetworkOutputs(stackName, vpc, subnets, n8nGroupId, efsGroupId, useExistingVpc);
      && |outs| == (if useExistingVpc then 4 else 5)
      && OutputNames(outs)[..4] == ["VpcId", "SubnetIds", "N8nSecurityGroupId", "EfsSecurityGroupId"]
      && outs[1].value == Joined(",", SubnetIdValues(subnets))
      && (!useExistingVpc ==> outs[4].name == "AvailabilityZones" && outs[4].value == JoinedSet(",", ZoneSet(subnets)))
  {
  }

  /** The four identifier outputs are exported under "{stack}-{name}". */
  lemma NetworkIdsExported(stackName: string, vpc: Vpc, subnets: seq<Subnet>, n8nGroupId: Value,
                           efsGroupId: Value, useExistingVpc: bool)
    ensures var outs := NetworkOutputs(stackName, vpc, subnets, n8nGroupId, efsGroupId, useExistingVpc);
      forall i :: 0 <= i < 4 ==> ExportKey(stackName, outs[i]) == Some(stackName + "-" + outs[i].name)
  {
    var outs := NetworkOutputs(stackName, vpc, subnets, n8nGroupId, efsGroupId, useExistingVpc);
    NetworkIdsExportable();
  }

  /** The zone list of a created VPC gets no export key. */
  lemma ZonesNotExported(stackName: string, vpc: Vpc, subnets: seq<Subnet>, n8nGroupId: Value,
                         efsGroupId: Value)
    ensures ExportKey(stackName, NetworkOutputs(stackName, vpc, subnets, n8nGroupId, efsGroupId, false)[4]) == None
  {
    ZonesNotExportable();
  }

  /** The subnet choice of `__init__`: for an imported VPC the listed ids (in order) or,
      with none listed, the VPC's public subnets, falling back to its private ones; for a
      created VPC its private subnets, falling back to its public ones. */
  method ChooseSubnets(net: NetworkingConfig, vpc: Vpc, provisioned: ProvisionedVpc) returns (subnets: seq<Subnet>)
    ensures net.useExistingVpc && |net.subnetIds| == 0 ==>
      subnets == PreferNonEmpty(provisioned.publicSubnets, provisioned.privateSubnets)
    ensures net.useExistingVpc && |net.subnetIds| > 0 ==>
      |subnets| == |net.subnetIds| && forall i :: 0 <= i < |subnets| ==> subnets[i] == ImportedSubnet(i, net.subnetIds[i])
    ensures !net.useExistingVpc ==> subnets == CreatedSubnets(vpc)
  {
    if net.useExistingVpc {
      if |net.subnetIds| == 0 {
        subnets := PreferNonEmpty(provisioned.publicSubnets, provisioned.privateSubnets);
      } else {
        subnets := SubnetsFromIds(net.subnetIds);
      }
    } else {
      subnets := CreatedSubnets(vpc);
    }
  }

  /** The network stack: its VPC, workload subnets and the two security groups.
      `base` is null for a stack rebuilt from another stack's outputs. */
  class NetworkStack {
    const base: N8nBaseStack?
    const stackName: string
    const vpc: Vpc
    var subnets: seq<Subnet>
    const n8nSecurityGroup: SecurityGroup
    const efsSecurityGroup: SecurityGroup

    /** The two security groups are separate objects with these rules: the app group talks
        to itself on all TCP ports and may reach anything; the storage group admits only
        NFS from the app group and has no outbound rule. */
    ghost predicate GroupsConfigured()
      reads this, n8nSecurityGroup, efsSecurityGroup
    {
      && n8nSecurityGroup != efsSecurityGroup
      && n8nSecurityGroup.allowAllOutbound
      && |n8nSecurityGroup.ingress| >= 1
      && n8nSecurityGroup.ingress[0] == IngressRule(GroupPeer(n8nSecurityGroup.groupId), AllTcp,
                                                    "Allow communication between n8n containers")
      && !efsSecurityGroup.allowAllOutbound
      && efsSecurityGroup.ingress == [IngressRule(GroupPeer(n8nSecurityGroup.groupId), Tcp(2049),
                                              "Allow NFS traffic from n8n containers")]
    }

    /** The VPC and subnets `__init__` chooses for base stack `b`: imported or created as
        the networking settings say. */
    ghost predicate VpcChosen(b: N8nBaseStack, provisioned: ProvisionedVpc)
      reads this, b
    {
      var net := b.envConfig.settings.networking;
      && (net.useExistingVpc ==> net.vpcId != "" && vpc == ImportVpc(net, provisioned).value)
      && (!net.useExistingVpc ==> vpc == CreateVpc(b, net, provisioned))
      && (net.useExistingVpc && |net.subnetIds| == 0 ==>
            subnets == PreferNonEmpty(provisioned.publicSubnets, provisioned.privateSubnets))
      && (net.useExistingVpc && |net.subnetIds| > 0 ==>
            |subnets| == |net.subnetIds|
            && forall i :: 0 <= i < |subnets| ==> subnets[i] == ImportedSubnet(i, net.subnetIds[i]))
      && (!net.useExistingVpc ==> subnets == CreatedSubnets(vpc))
    }

    /** What `__init__` leaves besides the outputs: the chosen VPC and subnets, and the two
        named, configured security groups. */
    ghost predicate Built(b: N8nBaseStack, provisioned: ProvisionedVpc)
      reads this, b, n8nSecurityGroup, efsSecurityGroup
    {
      && base == b && stackName == b.stackName
      && VpcChosen(b, provisioned)
      && GroupsConfigured()
      && n8nSecurityGroup.ingress == [IngressRule(GroupPeer(n8nSecurityGroup.groupId), AllTcp,
                                                  "Allow communication between n8n containers")]
      && n8nSecurityGroup.groupName == Some(b.GetResourceName("sg", "n8n"))
      && efsSecurityGroup.groupName == Some(b.GetResourceName("sg", "efs"))
    }

    /** The outputs `__init__` appends. */
    ghost function Outputs(): seq<Output>
      reads this, base
      requires base != null
    {
      NetworkOutputs(base.stackName, vpc, subnets, n8nSecurityGroup.groupId, efsSecurityGroup.groupId,
                     base.envConfig.settings.networking.useExistingVpc)
    }

    /** `NetworkStack.__init__` after the base stack, once `_import_vpc` is known to succeed. */
    constructor (b: N8nBaseStack, provisioned: ProvisionedVpc)
      requires b.envConfig.settings.networking.useExistingVpc ==> b.envConfig.settings.networking.vpcId != ""
      modifies b`outputs
      ensures fresh(n8nSecurityGroup) && fresh(efsSecurityGroup)
      ensures Built(b, provisioned)
      ensures b.outputs == old(b.outputs) + Outputs()
    {
      var net := b.envConfig.settings.networking;
      base := b;
      stackName := b.stackName;
      vpc := if net.useExistingVpc then ImportVpc(net, provisioned).value else CreateVpc(b, net, provisioned);
      var n8nGroup := new SecurityGroup("N8nSecurityGroup", b.GetResourceName("sg", "n8n"), true);
      var efsGroup := new SecurityGroup("EfsSecurityGroup", b.GetResourceName("sg", "efs"), false);
      n8nSecurityGroup := n8nGroup;
      efsSecurityGroup := efsGroup;
      new;
      subnets := ChooseSubnets(net, vpc, provisioned);
      ConfigureGroups();
      AddOutputs(b);
    }

    /** The two `add_ingress_rule` calls of `_create_security_groups`. */
    method ConfigureGroups()
      requires n8nSecurityGroup != efsSecurityGroup
      requires n8nSecurityGroup.allowAllOutbound && !efsSecurityGroup.allowAllOutbound
      requires n8nSecurityGroup.ingress == [] && efsSecurityGroup.ingress == []
      modifies n8nSecurityGroup`ingress, efsSecurityGroup`ingress
      ensures GroupsConfigured()
      ensures n8nSecurityGroup.ingress == [IngressRule(GroupPeer(n8nSecurityGroup.groupId), AllTcp,
                                                       "Allow communication between n8n containers")]
    {
      n8nSecurityGroup.AddIngressRule(GroupPeer(n8nSecurityGroup.groupId), AllTcp,
                                      "Allow communication between n8n containers");
      efsSecurityGroup.AddIngressRule(GroupPeer(n8nSecurityGroup.groupId), Tcp(2049),
                                      "Allow NFS traffic from n8n containers");
    }

    /** `_add_outputs` */
    method AddOutputs(b: N8nBaseStack)
      requires base == b && stackName == b.stackName
      modifies b`outputs
      ensures b.outputs == old(b.outputs) + NetworkOutputs(stackName, vpc, subnets, n8nSecurityGroup.groupId,
                                                         efsSecurityGroup.groupId, b.envConfig.settings.networking.useExistingVpc)
    {
      var useExisting := b.envConfig.settings.networking.useExistingVpc;
      var current := subnets;
      ghost var expected := NetworkOutputs(stackName, vpc, current, n8nSecurityGroup.groupId,
                                           efsSecurityGroup.groupId, useExisting);
      b.AddOutput("VpcId", VpcIdValue(vpc), "VPC ID for n8n deployment", None);
      b.AddOutput("SubnetIds", Joined(",", SubnetIdValues(current)), "Subnet IDs for n8n deployment", None);
      b.AddOutput("N8nSecurityGroupId", n8nSecurityGroup.groupId, "Security group ID for n8n tasks", None);
      b.AddOutput("EfsSecurityGroupId", efsSecurityGroup.groupId, "Security group ID for EFS", None);
      assert b.outputs == old(b.outputs) + expected[..4];
      if !useExisting {
        b.AddOutput("AvailabilityZones", JoinedSet(",", ZoneSet(current)), "Availability zones used", None);
        assert expected == expected[..4] + [expected[4]];
      } else {
        assert expected == expected[..4];
      }
    }

    /** `import_from_outputs`: a stack that only holds references to existing resources. */
    constructor FromOutputs(constructId: string, vpcId: string, subnetIds: seq<string>, n8nGroupId: string,
                            efsGroupId: string, provisioned: ProvisionedVpc)
      ensures base == null && stackName == constructId
      ensures vpc == ImportedVpc(vpcId, provisioned)
      ensures |subnets| == |subnetIds|
      ensures forall i :: 0 <= i < |subnetIds| ==> subnets[i] == ImportedSubnet(i, subnetIds[i])
      ensures fresh(n8nSecurityGroup) && fresh(efsSecurityGroup) && n8nSecurityGroup != efsSecurityGroup
      ensures n8nSecurityGroup.constructId == "ImportedN8nSg" && n8nSecurityGroup.groupId == Lit(n8nGroupId)
      ensures efsSecurityGroup.constructId == "ImportedEfsSg" && efsSecurityGroup.groupId == Lit(efsGroupId)
      ensures n8nSecurityGroup.ingress == [] && efsSecurityGroup.ingress == []
    {
      base := null;
      stackName := constructId;
      vpc := ImportedVpc(vpcId, provisioned);
      n8nSecurityGroup := new SecurityGroup.Imported("ImportedN8nSg", n8nGroupId);
      efsSecurityGroup := new SecurityGroup.Imported("ImportedEfsSg", efsGroupId);
      new;
      subnets := SubnetsFromIds(subnetIds);
    }
  }

  /** `NetworkStack(...)`: the base stack's environment error, then the import error, else the stack. */
  method NewNetworkStack(config: N8nConfig, environment: string, constructId: string, kwargs: PropOverrides,
                         provisioned: ProvisionedVpc)
    returns (r: Result<NetworkStack>)
    ensures r.Failure? <==>
      (environment !in config.environments
       || MissingVpcId(config.environments[environment].settings.networking))
    ensures environment !in config.environments ==> r == Failure(EnvironmentNotFound(environment))
    ensures environment in config.environments && MissingVpcId(config.environments[environment].settings.networking)
      ==> r == Failure(MissingField("vpc_id", "use_existing_vpc"))
    ensures r.Success? ==>
      && fresh(r.value) && r.value.base != null && fresh(r.value.base)
      && r.value.base.Resolved(config, environment, constructId, kwargs)
      && r.value.Built(r.value.base, provisioned)
      && r.value.base.outputs == r.value.Outputs()
  {
    var b := NewBaseStack(config, environment, constructId, kwargs);
    if b.Failure? {
      return Failure(b.error);
    }
    var net := b.value.envConfig.settings.networking;
    if net.useExistingVpc && net.vpcId == "" {
      return Failure(MissingField("vpc_id", "use_existing_vpc"));
    }
    var stack := new NetworkStack(b.value, provisioned);
    return Success(stack);
  }

  /** Import mode was asked for without a VPC id. */
  predicate MissingVpcId(net: NetworkingConfig)
  {
    net.useExistingVpc && net.vpcId == ""
  }
}
