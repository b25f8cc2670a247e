/** `AccessStack`: how n8n is reached. In gateway mode a VPC link and an HTTP API,
    optionally a CloudFront distribution (optionally behind a WAF web ACL) and a
    custom-domain record; in Cloudflare mode nothing but outputs. */
module Access {
  import opened Common
  import opened Config
  import opened Resources
  import opened BaseStack
  import opened Network
  import opened Compute

  /** The gateway path of `__init__`: no access block, or one of type API_GATEWAY. */
  predicate GatewayMode(access: Option<AccessConfig>)
  {
    access.None? || access.value.accessType == ApiGateway
  }

  /** CloudFront is created on the gateway path when the access block enables it. */
  predicate CloudFrontWanted(access: Option<AccessConfig>)
  {
    GatewayMode(access) && access.Some? && access.value.cloudfrontEnabled
  }

  /** The WAF web ACL is created only inside the CloudFront branch. */
  predicate WafWanted(access: Option<AccessConfig>)
  {
    CloudFrontWanted(access) && access.value.wafEnabled
  }

  /** An access block with a non-empty domain name. */
  predicate DomainGiven(access: Option<AccessConfig>)
  {
    access.Some? && access.value.domainName != ""
  }

  /** The Cloudflare path is exactly the access block of type CLOUDFLARE, and on it nothing
      of the gateway path is wanted. */
  lemma TunnelModeExcludesGateway(access: Option<AccessConfig>)
    ensures !GatewayMode(access) <==> access.Some? && access.value.accessType == Cloudflare
    ensures !GatewayMode(access) ==> !CloudFrontWanted(access) && !WafWanted(access)
  {
  }

  // ----- API Gateway -----

  datatype VpcLink = VpcLink(vpcLinkName: string, vpcId: Value, subnets: seq<Subnet>, securityGroupId: Value)

  datatype CorsPreflight = CorsPreflight(allowOrigins: seq<string>, allowHeaders: seq<string>, maxAgeSeconds: nat)

  /** A route for every HTTP method on `path`, integrated with the Cloud Map service. */
  datatype Route = Route(path: string, cloudMapService: Value)

  /** The ingress rule `_create_api_gateway` adds to the service security group. */
  function GatewayIngress(vpc: Vpc): IngressRule
  {
    IngressRule(Ipv4Peer(VpcCidrBlock(vpc)), Tcp(5678), "Allow API Gateway to access n8n")
  }

  /** CORS preflight: the configured origins, any header, one day; none without an access block. */
  function CorsFor(access: Option<AccessConfig>): (c: Option<CorsPreflight>)
    ensures c.Some? <==> access.Some?
    ensures c.Some? ==> c.value.allowOrigins == access.value.corsOrigins && c.value.maxAgeSeconds == 86400
  {
    if access.Some? then Some(CorsPreflight(access.value.corsOrigins, ["*"], 86400)) else None
  }

  /** The routes `_create_api_gateway` adds: none without a Cloud Map service, else the
      proxy route and the root route. */
  function ApiRoutes(service: ServiceHandle): seq<Route>
  {
    if service.cloudMapServiceName.Some?
    then [Route("/{proxy+}", service.cloudMapServiceName.value), Route("/", service.cloudMapServiceName.value)]
    else []
  }

  /** Without a Cloud Map service the API has no routes; with one it has exactly two,
      "/{proxy+}" then "/", both on that service. */
  lemma RoutesNeedCloudMap(service: ServiceHandle)
    ensures |ApiRoutes(service)| == 0 <==> service.cloudMapServiceName.None?
    ensures service.cloudMapServiceName.Some? ==>
      |ApiRoutes(service)| == 2 && ApiRoutes(service)[0].path == "/{proxy+}" && ApiRoutes(service)[1].path == "/"
      && forall i :: 0 <= i < 2 ==> ApiRoutes(service)[i].cloudMapService == service.cloudMapServiceName.value
  {
  }

  /** An HTTP API: routes are added after creation. */
  class HttpApi {
    const apiName: string
    const description: string
    const cors: Option<CorsPreflight>
    var routes: seq<Route>

    constructor (apiName: string, description: string, cors: Option<CorsPreflight>)
      ensures this.apiName == apiName && this.description == description && this.cors == cors
      ensures routes == []
    {
      this.apiName := apiName;
      this.description := description;
      this.cors := cors;
      routes := [];
    }

    /** `add_routes` */
    method AddRoutes(path: string, cloudMapService: Value)
      modifies this`routes
      ensures routes == old(routes) + [Route(path, cloudMapService)]
    {
      routes := routes + [Route(path, cloudMapService)];
    }
  }

  // ----- CloudFront -----

  datatype PriceClass = PriceClass100 | PriceClassAll

  datatype ViewerPolicy = RedirectToHttps | HttpsOnly

  /** A cache behaviour: where it sends requests, how viewers must connect, and whether
      the managed caching-disabled policy replaces the stack's own cache policy. */
  datatype Behavior = Behavior(origin: Value, viewerPolicy: ViewerPolicy, cachingDisabled: bool)

  datatype Certificate = SharedCertificate(arn: string)

  /** "{api_id}.execute-api.{region}.amazonaws.com" */
  function ApiOrigin(region: string): Value
  {
    Concat([Attr("HttpApi", "ApiId"), Lit(".execute-api." + region + ".amazonaws.com")])
  }

  /** Price class 100 in development, else all edge locations. */
  function PriceClassFor(environment: string): (p: PriceClass)
    ensures p == PriceClass100 <==> IsDevelopment(environment)
  {
    if IsDevelopment(environment) then PriceClass100 else PriceClassAll
  }

  /** The two behaviours `_create_cloudfront_distribution` adds, in order. */
  function ExtraBehaviors(region: string): seq<(string, Behavior)>
  {
    [("/webhook/*", Behavior(ApiOrigin(region), HttpsOnly, true)),
     ("/rest/*", Behavior(ApiOrigin(region), HttpsOnly, true))]
  }

  /** Both extra behaviours send requests to the API, require HTTPS and disable caching. */
  lemma ExtraBehaviorsUncached(region: string)
    ensures |ExtraBehaviors(region)| == 2
    ensures ExtraBehaviors(region)[0].0 == "/webhook/*" && ExtraBehaviors(region)[1].0 == "/rest/*"
    ensures forall i :: 0 <= i < 2 ==>
      ExtraBehaviors(region)[i].1.cachingDisabled && ExtraBehaviors(region)[i].1.viewerPolicy == HttpsOnly
      && ExtraBehaviors(region)[i].1.origin == ApiOrigin(region)
  {
  }

  /** A CloudFront distribution: extra behaviours are added after creation. */
  class Distribution {
    const defaultBehavior: Behavior
    const domainNames: Option<seq<string>>
    const certificate: Option<Certificate>
    const priceClass: PriceClass
    const comment: string
    var behaviors: seq<(string, Behavior)>

    constructor (defaultBehavior: Behavior, domainNames: Option<seq<string>>, certificate: Option<Certificate>,
                 priceClass: PriceClass, comment: string)
      ensures this.defaultBehavior == defaultBehavior && this.domainNames == domainNames
      ensures this.certificate == certificate && this.priceClass == priceClass && this.comment == comment
      ensures behaviors == []
    {
      this.defaultBehavior := defaultBehavior;
      this.domainNames := domainNames;
      this.certificate := certificate;
      this.priceClass := priceClass;
      this.comment := comment;
      behaviors := [];
    }

    /** `add_behavior` */
    method AddBehavior(pathPattern: string, behavior: Behavior)
      modifies this`behaviors
      ensures behaviors == old(behaviors) + [(pathPattern, behavior)]
    {
      behaviors := behaviors + [(pathPattern, behavior)];
    }
  }

  // ----- WAF -----

  datatype WafAction = Allow | Block

  datatype RuleStatement =
    | ManagedRuleGroup(vendorName: string, name: string)
    | RateBased(limit: nat, aggregateKeyType: string)
    | IpSetReference(arn: Value)

  /** A rule's own action, or `overrideAction: none` for a managed rule group. */
  datatype RuleAction = OverrideNone | Act(action: WafAction)

  datatype WafRule = WafRule(name: string, priority: nat, statement: RuleStatement, action: RuleAction, metricName: string)

  datatype IpSet = IpSet(name: string, addresses: seq<string>)

  /** A web ACL of scope CLOUDFRONT. */
  datatype WebAcl = WebAcl(name: string, defaultAction: WafAction, rules: seq<WafRule>, metricName: string)

  const CommonRuleSetRule := WafRule("AWSManagedRulesCommonRuleSet", 10,
                                     ManagedRuleGroup("AWS", "AWSManagedRulesCommonRuleSet"), OverrideNone, "CommonRuleSet")

  /** At most 2000 requests per five minutes from one IP address. */
  const RateLimitRule := WafRule("RateLimitRule", 20, RateBased(2000, "IP"), Act(Block), "RateLimitRule")

  function IpWhitelistRule(ipSetArn: Value): WafRule
  {
    WafRule("IPWhitelistRule", 1, IpSetReference(ipSetArn), Act(Allow), "IPWhitelistRule")
  }

  const IpSetArn := Attr("IpWhitelist", "Arn")

  /** The web ACL of `_create_waf_web_acl` over the allow-list rules built before it. */
  function WebAclFor(name: string, ipRules: seq<WafRule>): WebAcl
  {
    WebAcl(name, if |ipRules| == 0 then Allow else Block, [CommonRuleSetRule, RateLimitRule] + ipRules, name)
  }

  /** The allow-list rules: one rule on the IP set when the whitelist is non-empty. */
  function WhitelistRules(whitelist: seq<string>): seq<WafRule>
  {
    if |whitelist| > 0 then [IpWhitelistRule(IpSetArn)] else []
  }

  /** The rule list is the common rule set (priority 10), then the rate limit (2000 per IP,
      priority 20, block), then the allow-list rule (priority 1, allow) exactly when the
      whitelist is non-empty, in that declared order. Requests no rule decides are blocked
      exactly when some rule allows. */
  lemma WafRuleList(name: string, whitelist: seq<string>)
    ensures var acl := WebAclFor(name, WhitelistRules(whitelist));
      && acl.rules[..2] == [CommonRuleSetRule, RateLimitRule]
      && acl.rules[0].priority == 10 && acl.rules[1].priority == 20
      && acl.rules[1].statement == RateBased(2000, "IP") && acl.rules[1].action == Act(Block)
      && (|acl.rules| == 3 <==> |whitelist| > 0) && 2 <= |acl.rules| <= 3
      && (|whitelist| > 0 ==> acl.rules[2].priority == 1 && acl.rules[2].action == Act(Allow))
      && (acl.defaultAction == Block <==> |whitelist| > 0)
      && (acl.defaultAction == Block <==> exists i :: 0 <= i < |acl.rules| && acl.rules[i].action == Act(Allow))
  {
    var acl := WebAclFor(name, WhitelistRules(whitelist));
    if |whitelist| > 0 {
      assert acl.rules[2].action == Act(Allow);
    } else {
      forall i | 0 <= i < |acl.rules| ensures acl.rules[i].action != Act(Allow) {
        assert acl.rules == [CommonRuleSetRule, RateLimitRule];
      }
    }
  }

  // ----- Route 53 -----

  datatype HostedZone = HostedZone(hostedZoneId: string, zoneName: string)

  /** An alias record for the custom domain, pointing at the distribution. */
  datatype ARecord = ARecord(zone: HostedZone, recordName: string, target: Value)

  const DistributionDomainName := Attr("Distribution", "DistributionDomainName")

  /** Python's `parts[-2:]` */
  function LastTwo(parts: seq<string>): (r: seq<string>)
    ensures |r| == if |parts| <= 2 then |parts| else 2
    ensures r == parts[|parts| - |r|..]
  {
    if |parts| <= 2 then parts else parts[|parts| - 2..]
  }

  /** `".".join(domain.split(".")[-2:])` */
  function ZoneName(domain: string): string
  {
    Join(".", LastTwo(Split(domain, '.')))
  }

  /** The zone name is a suffix of the domain, and the whole domain when it has at most
      one dot. */
  lemma ZoneNameIsSuffix(domain: string)
    ensures |ZoneName(domain)| <= |domain|
    ensures domain[|domain| - |ZoneName(domain)|..] == ZoneName(domain)
    ensures |Split(domain, '.')| <= 2 ==> ZoneName(domain) == domain
  {
    var parts := Split(domain, '.');
    JoinSplit(domain, '.');
    assert Join(".", parts) == domain;
    var m := |parts| - |LastTwo(parts)|;
    if m == 0 {
      assert parts[m..] == parts;
    } else {
      JoinTailIsSuffix(".", parts, m);
    }
  }

  // ----- Outputs -----

  function ApiUrlValue(region: string): Value
  {
    Either(Attr("HttpApi", "Url"),
           Concat([Lit("https://"), Attr("HttpApi", "ApiId"), Lit(".execute-api." + region + ".amazonaws.com")]))
  }

  /** `_add_outputs`: in gateway mode the API URL and id (when an API exists), in Cloudflare
      mode the access type and, when a tunnel domain is set, the access URL; then the
      distribution URL and id when a distribution exists, and with them the custom-domain
      URL when a domain is set. */
  function AccessOutputs(stackName: string, region: string, access: Option<AccessConfig>, apiCreated: bool,
                         distributionCreated: bool): seq<Output>
  {
    ModeOutputs(stackName, region, access, apiCreated) + DistributionOutputs(stackName, access, distributionCreated)
  }

  function ModeOutputs(stackName: string, region: string, access: Option<AccessConfig>, apiCreated: bool): seq<Output>
  {
    if GatewayMode(access) then
      if apiCreated
      then [MakeOutput(stackName, "ApiUrl", ApiUrlValue(region), "API Gateway URL", None),
            MakeOutput(stackName, "ApiId", Attr("HttpApi", "ApiId"), "API Gateway ID", None)]
      else []
    else
      [MakeOutput(stackName, "AccessType", Lit("CloudflareTunnel"), "Access method is Cloudflare Tunnel", None)]
      + (if TunnelDomainGiven(access)
         then [MakeOutput(stackName, "AccessUrl", Lit("https://" + access.value.cloudflare.value.tunnelDomain),
                          "n8n access URL via Cloudflare Tunnel", None)]
         else [])
  }

  predicate TunnelDomainGiven(access: Option<AccessConfig>)
  {
    access.Some? && access.value.cloudflare.Some? && access.value.cloudflare.value.tunnelDomain != ""
  }

  function DistributionOutputs(stackName: string, access: Option<AccessConfig>, distributionCreated: bool): seq<Output>
  {
    if distributionCreated then
      [MakeOutput(stackName, "DistributionUrl", Concat([Lit("https://"), DistributionDomainName]),
                  "CloudFront distribution URL", None),
       MakeOutput(stackName, "DistributionId", Attr("Distribution", "DistributionId"), "CloudFront distribution ID", None)]
      + (if DomainGiven(access)
         then [MakeOutput(stackName, "CustomDomainUrl", Lit("https://" + access.value.domainName), "Custom domain URL", None)]
         else [])
    else []
  }

  /** The output names by mode. */
  lemma AccessOutputNames(stackName: string, region: string, access: Option<AccessConfig>, apiCreated: bool,
                          distributionCreated: bool)
    ensures OutputNames(ModeOutputs(stackName, region, access, apiCreated))
      == if GatewayMode(access)
         then (if apiCreated then ["ApiUrl", "ApiId"] else [])
         else ["AccessType"] + (if TunnelDomainGiven(access) then ["AccessUrl"] else [])
    ensures OutputNames(DistributionOutputs(stackName, access, distributionCreated))
      == if distributionCreated
         then ["DistributionUrl", "DistributionId"] + (if DomainGiven(access) then ["CustomDomainUrl"] else [])
         else []
  {
    var mode := ModeOutputs(stackName, region, access, apiCreated);
    if !GatewayMode(access) {
      var head := [MakeOutput(stackName, "AccessType", Lit("CloudflareTunnel"), "Access method is Cloudflare Tunnel", None)];
      OutputNamesAppend(head, mode[1..]);
      assert mode == head + mode[1..];
    }
    var dist := DistributionOutputs(stackName, access, distributionCreated);
    if distributionCreated {
      OutputNamesAppend(dist[..2], dist[2..]);
      assert dist == dist[..2] + dist[2..];
    }
  }

  /** The tunnel access URL is "https://" followed by the configured tunnel domain. */
  lemma AccessUrlValue(stackName: string, region: string, access: Option<AccessConfig>, apiCreated: bool)
    requires !GatewayMode(access) && TunnelDomainGiven(access)
    ensures var outs := ModeOutputs(stackName, region, access, apiCreated);
      |outs| == 2 && outs[0].value == Lit("CloudflareTunnel")
      && outs[1].value == Lit("https://" + access.value.cloudflare.value.tunnelDomain)
  {
  }

  lemma ApiUrlExportable()
    ensures ShouldExportOutput("ApiUrl")
  {
    ExportableBy("ApiUrl", 6, 0);
  }

  lemma ApiIdNotExportable()
    ensures !ShouldExportOutput("ApiId")
  {
    NotExportable("ApiId", "VSSCSLUDF");
  }

  lemma AccessTypeNotExportable()
    ensures !ShouldExportOutput("AccessType")
  {
    NotExportable("AccessType", "VSSCSLiDF");
  }

  lemma AccessUrlNotExportable()
    ensures !ShouldExportOutput("AccessUrl")
  {
    NotExportable("AccessUrl", "VSSCSLpDF");
  }

  lemma DistributionUrlNotExportable()
    ensures !ShouldExportOutput("DistributionUrl")
  {
    NotExportable("DistributionUrl", "VSSCSLAaF");
  }

  lemma DistributionIdNotExportable()
    ensures !ShouldExportOutput("DistributionId")
  {
    NotExportable("DistributionId", "VSSCSLAaF");
  }

  lemma CustomDomainUrlNotExportable()
    ensures !ShouldExportOutput("CustomDomainUrl")
  {
    NotExportable("CustomDomainUrl", "VSSeSLAbF");
  }

  /** The names of the access outputs that carry an export key. */
  const AccessExports := {"ApiUrl"}

  lemma ModeOutputsExport(stackName: string, region: string, access: Option<AccessConfig>, apiCreated: bool)
    ensures ExportsExactly(stackName, ModeOutputs(stackName, region, access, apiCreated), AccessExports)
  {
    if GatewayMode(access) {
      ApiUrlExportable();
      ApiIdNotExportable();
    } else {
      AccessTypeNotExportable();
      AccessUrlNotExportable();
    }
  }

  lemma DistributionOutputsExport(stackName: string, access: Option<AccessConfig>, distributionCreated: bool)
    ensures ExportsExactly(stackName, DistributionOutputs(stackName, access, distributionCreated), AccessExports)
  {
    DistributionUrlNotExportable();
    DistributionIdNotExportable();
    CustomDomainUrlNotExportable();
  }

  /** Of the access outputs only ApiUrl carries an export key. */
  lemma AccessOutputsExport(stackName: string, region: string, access: Option<AccessConfig>, apiCreated: bool,
                            distributionCreated: bool)
    ensures ExportsExactly(stackName, AccessOutputs(stackName, region, access, apiCreated, distributionCreated),
                           AccessExports)
  {
    ModeOutputsExport(stackName, region, access, apiCreated);
    DistributionOutputsExport(stackName, access, distributionCreated);
    ExportsExactlyAppend(stackName, ModeOutputs(stackName, region, access, apiCreated),
                         DistributionOutputs(stackName, access, distributionCreated), AccessExports);
  }

  // ----- The stack -----

  /** The access stack: what the gateway path created, if it ran. */
  class AccessStack {
    const base: N8nBaseStack
    const compute: ComputeStack
    const accessConfig: Option<AccessConfig>
    var vpcLink: Option<VpcLink>
    var api: HttpApi?
    var distribution: Distribution?
    var ipSet: Option<IpSet>
    var webAcl: Option<WebAcl>
    var hostedZone: Option<HostedZone>
    var aRecord: Option<ARecord>

    /** The API as `_create_api_gateway` leaves it. */
    ghost predicate ApiConfigured()
      reads this, api
    {
      && api != null
      && api.apiName == base.GetResourceName("api", "")
      && api.description == "n8n API for " + base.environmentName
      && api.cors == CorsFor(accessConfig)
      && api.routes == ApiRoutes(compute.service)
    }

    /** The distribution as `_create_cloudfront_distribution` leaves it. */
    ghost predicate DistributionConfigured()
      reads this, distribution
    {
      && distribution != null
      && distribution.defaultBehavior == Behavior(ApiOrigin(base.envConfig.region), RedirectToHttps, false)
      && distribution.domainNames == (if DomainGiven(accessConfig) then Some([accessConfig.value.domainName]) else None)
      && distribution.certificate == GetOrCreateCertificate()
      && distribution.priceClass == PriceClassFor(base.environmentName)
      && distribution.comment == "n8n distribution for " + base.environmentName
      && distribution.behaviors == ExtraBehaviors(base.envConfig.region)
    }

    /** What `_setup_custom_domain` leaves: nothing without a domain or a registered zone id;
        otherwise the zone named after the domain's last two labels and, when a distribution
        exists, an alias record for the domain. */
    ghost predicate CustomDomainConfigured()
      reads this
    {
      var zoneId := base.GetSharedResource("networking", "route53_zone_id");
      if DomainGiven(accessConfig) && zoneId.Some? && zoneId.value != "" then
        var zone := HostedZone(zoneId.value, ZoneName(accessConfig.value.domainName));
        && hostedZone == Some(zone)
        && aRecord == (if distribution != null
                       then Some(ARecord(zone, accessConfig.value.domainName, DistributionDomainName)) else None)
      else
        hostedZone == None && aRecord == None
    }

    /** What the gateway branch of `__init__` leaves. */
    ghost predicate GatewayBuilt()
      reads this, api, distribution, compute.network
    {
      && vpcLink == Some(VpcLinkFor(base, compute.network))
      && ApiConfigured()
      && EdgeBuilt()
      && CustomDomainConfigured()
    }

    /** CloudFront exactly when enabled, and a web ACL (and IP set) only with it. */
    ghost predicate EdgeBuilt()
      reads this, distribution
    {
      && (CloudFrontWanted(accessConfig) <==> distribution != null)
      && (distribution != null ==> DistributionConfigured())
      && (WafWanted(accessConfig) <==> webAcl.Some?)
      && (webAcl.Some? ==> webAcl.value == WebAclFor(base.GetResourceName("waf", ""), WhitelistRules(accessConfig.value.ipWhitelist)))
      && (ipSet.Some? <==> webAcl.Some? && |accessConfig.value.ipWhitelist| > 0)
    }

    /** What `__init__` leaves besides the outputs and the service group's ingress: the
        gateway resources in gateway mode, nothing otherwise. */
    ghost predicate Built()
      reads this, api, distribution, compute.network
    {
      && (GatewayMode(accessConfig) ==> GatewayBuilt())
      && (!GatewayMode(accessConfig) ==> NothingBuilt())
    }

    /** The Cloudflare path of `__init__` creates no resources. */
    ghost predicate NothingBuilt()
      reads this
    {
      vpcLink == None && api == null && distribution == null && webAcl == None && ipSet == None
      && hostedZone == None && aRecord == None
    }

    /** `__init__` after the base stack. */
    constructor (b: N8nBaseStack, compute: ComputeStack)
      modifies b`outputs, compute.network.n8nSecurityGroup`ingress
      ensures base == b && this.compute == compute && accessConfig == b.envConfig.settings.access
      ensures Built()
      ensures GatewayMode(accessConfig) ==> fresh(api) && (distribution != null ==> fresh(distribution))
      ensures compute.network.n8nSecurityGroup.ingress
        == old(compute.network.n8nSecurityGroup.ingress)
           + (if GatewayMode(accessConfig) then [GatewayIngress(compute.network.vpc)] else [])
      ensures b.outputs == old(b.outputs) + AccessOutputs(b.stackName, b.envConfig.region, accessConfig,
                                                           api != null, distribution != null)
    {
      base := b;
      this.compute := compute;
      accessConfig := b.envConfig.settings.access;
      vpcLink, api, distribution := None, null, null;
      ipSet, webAcl, hostedZone, aRecord := None, None, None, None;
      new;
      assert NothingBuilt();
      if GatewayMode(accessConfig) {
        BuildGateway();
      }
      AddOutputs();
    }

    /** The gateway branch of `__init__`. */
    method BuildGateway()
      requires GatewayMode(accessConfig)
      requires api == null && distribution == null && webAcl == None && ipSet == None
      requires hostedZone == None && aRecord == None
      modifies this`vpcLink, this`api, this`distribution, this`ipSet, this`webAcl, this`hostedZone, this`aRecord,
               compute.network.n8nSecurityGroup`ingress
      ensures GatewayBuilt() && fresh(api) && (distribution != null ==> fresh(distribution))
      ensures compute.network.n8nSecurityGroup.ingress
        == old(compute.network.n8nSecurityGroup.ingress) + [GatewayIngress(compute.network.vpc)]
    {
      var link := CreateVpcLink();
      vpcLink := Some(link);
      CreateApiGateway();
      BuildEdge();
      if accessConfig.Some? && accessConfig.value.domainName != "" {
        SetupCustomDomain();
      }
    }

    /** The CloudFront branch of `__init__`, with the WAF branch inside it. */
    method BuildEdge()
      requires GatewayMode(accessConfig)
      requires distribution == null && webAcl == None && ipSet == None
      modifies this`distribution, this`ipSet, this`webAcl
      ensures EdgeBuilt() && (distribution != null ==> fresh(distribution))
    {
      if accessConfig.Some? && accessConfig.value.cloudfrontEnabled {
        CreateCloudFrontDistribution();
        if accessConfig.value.wafEnabled {
          CreateWafWebAcl();
          AssociateWafWithCloudFront();
        }
      }
    }

    /** `_create_vpc_link` */
    method CreateVpcLink() returns (link: VpcLink)
      ensures link == VpcLinkFor(base, compute.network)
    {
      var network := compute.network;
      link := VpcLink(base.GetResourceName("vpc-link", ""), VpcIdValue(network.vpc), network.subnets,
                      network.n8nSecurityGroup.groupId);
    }

    /** `_create_api_gateway`: the ingress rule on the service group comes first, and the
        routes are added only when the service registered in Cloud Map. */
    method CreateApiGateway()
      modifies this`api, compute.network.n8nSecurityGroup`ingress
      ensures ApiConfigured() && fresh(api)
      ensures compute.network.n8nSecurityGroup.ingress
        == old(compute.network.n8nSecurityGroup.ingress) + [GatewayIngress(compute.network.vpc)]
    {
      compute.ServiceSecurityGroup().AddIngressRule(Ipv4Peer(VpcCidrBlock(compute.network.vpc)), Tcp(5678),
                                                    "Allow API Gateway to access n8n");
      var httpApi := new HttpApi(base.GetResourceName("api", ""), "n8n API for " + base.environmentName,
                                 CorsFor(accessConfig));
      api := httpApi;
      var cloudMap := compute.service.cloudMapServiceName;
      if cloudMap.None? {
        return;
      }
      httpApi.AddRoutes("/{proxy+}", cloudMap.value);
      httpApi.AddRoutes("/", cloudMap.value);
    }

    /** `_create_cloudfront_distribution` */
    method CreateCloudFrontDistribution()
      modifies this`distribution
      ensures DistributionConfigured() && fresh(distribution)
    {
      var region, environment := base.envConfig.region, base.environmentName;
      var certificate := GetOrCreateCertificate();
      var domainNames := if accessConfig.Some? && accessConfig.value.domainName != ""
                         then Some([accessConfig.value.domainName]) else None;
      var priceClass := if IsDevelopment(environment) then PriceClass100 else PriceClassAll;
      var d := new Distribution(Behavior(ApiOrigin(region), RedirectToHttps, false), domainNames, certificate,
                                priceClass, "n8n distribution for " + environment);
      d.AddBehavior("/webhook/*", Behavior(ApiOrigin(region), HttpsOnly, true));
      d.AddBehavior("/rest/*", Behavior(ApiOrigin(region), HttpsOnly, true));
      distribution := d;
    }

    /** `_create_waf_web_acl`: the allow-list rule is appended when there is a whitelist. */
    method CreateWafWebAcl()
      requires accessConfig.Some?
      modifies this`ipSet, this`webAcl
      ensures webAcl == Some(WebAclFor(base.GetResourceName("waf", ""), WhitelistRules(accessConfig.value.ipWhitelist)))
      ensures ipSet.Some? <==> |accessConfig.value.ipWhitelist| > 0
      ensures ipSet.Some? ==> ipSet.value == IpSet(base.GetResourceName("ip-whitelist", ""), accessConfig.value.ipWhitelist)
    {
      var ipRules: seq<WafRule> := [];
      ipSet := None;
      if |accessConfig.value.ipWhitelist| > 0 {
        ipSet := Some(IpSet(base.GetResourceName("ip-whitelist", ""), accessConfig.value.ipWhitelist));
        ipRules := ipRules + [IpWhitelistRule(IpSetArn)];
      }
      assert ipRules == WhitelistRules(accessConfig.value.ipWhitelist);
      webAcl := Some(WebAclFor(base.GetResourceName("waf", ""), ipRules));
    }

    /** `_associate_waf_with_cloudfront`: the association is left to the deployment
        service, so the step changes nothing here. */
    method AssociateWafWithCloudFront()
    {
    }

    /** `_get_or_create_certificate`: only with a domain, and only from the shared
        ("security", "certificate_arn") entry when it is set and non-empty. */
    function GetOrCreateCertificate(): (c: Option<Certificate>)
      ensures var shared := base.config.sharedResources;
        c.Some? <==>
          (DomainGiven(accessConfig) && shared.Some? && "security" in shared.value
           && "certificate_arn" in shared.value["security"] && shared.value["security"]["certificate_arn"] != "")
      ensures c.Some? ==> c.value == SharedCertificate(base.config.sharedResources.value["security"]["certificate_arn"])
    {
      if !DomainGiven(accessConfig) then None
      else
        var shared := base.GetSharedResource("security", "certificate_arn");
        if shared.Some? && shared.value != "" then Some(SharedCertificate(shared.value)) else None
    }

    /** `_setup_custom_domain` */
    method SetupCustomDomain()
      modifies this`hostedZone, this`aRecord
      requires hostedZone == None && aRecord == None
      ensures CustomDomainConfigured()
    {
      if accessConfig.None? || accessConfig.value.domainName == "" {
        return;
      }
      var zoneId := base.GetSharedResource("networking", "route53_zone_id");
      if zoneId.None? || zoneId.value == "" {
        return;
      }
      var domain := accessConfig.value.domainName;
      var zone := HostedZone(zoneId.value, ZoneName(domain));
      hostedZone := Some(zone);
      if distribution != null {
        aRecord := Some(ARecord(zone, domain, DistributionDomainName));
      }
    }

    /** `_add_outputs` */
    method AddOutputs()
      modifies base`outputs
      ensures base.outputs == old(base.outputs) + AccessOutputs(base.stackName, base.envConfig.region, accessConfig,
                                                                 api != null, distribution != null)
    {
      AddModeOutputs();
      AddDistributionOutputs();
    }

    method AddDistributionOutputs()
      modifies base`outputs
      ensures base.outputs == old(base.outputs) + DistributionOutputs(base.stackName, accessConfig, distribution != null)
    {
      var b := base;
      if distribution == null {
        return;
      }
      b.AddOutput("DistributionUrl", Concat([Lit("https://"), DistributionDomainName]), "CloudFront distribution URL", None);
      b.AddOutput("DistributionId", Attr("Distribution", "DistributionId"), "CloudFront distribution ID", None);
      if accessConfig.Some? && accessConfig.value.domainName != "" {
        b.AddOutput("CustomDomainUrl", Lit("https://" + accessConfig.value.domainName), "Custom domain URL", None);
      }
    }

    method AddModeOutputs()
      modifies base`outputs
      ensures base.outputs == old(base.outputs) + ModeOutputs(base.stackName, base.envConfig.region, accessConfig, api != null)
    {
      var b := base;
      if accessConfig.None? || accessConfig.value.accessType == ApiGateway {
        if api != null {
          b.AddOutput("ApiUrl", ApiUrlValue(b.envConfig.region), "API Gateway URL", None);
          b.AddOutput("ApiId", Attr("HttpApi", "ApiId"), "API Gateway ID", None);
        }
      } else {
        b.AddOutput("AccessType", Lit("CloudflareTunnel"), "Access method is Cloudflare Tunnel", None);
        if accessConfig.value.cloudflare.Some? && accessConfig.value.cloudflare.value.tunnelDomain != "" {
          b.AddOutput("AccessUrl", Lit("https://" + accessConfig.value.cloudflare.value.tunnelDomain),
                      "n8n access URL via Cloudflare Tunnel", None);
        }
      }
    }
  }

  /** The VPC link: the network stack's VPC, subnets and app security group. */
  function VpcLinkFor(b: N8nBaseStack, network: NetworkStack): VpcLink
    reads network
  {
    VpcLink(b.GetResourceName("vpc-link", ""), VpcIdValue(network.vpc), network.subnets, network.n8nSecurityGroup.groupId)
  }

  /** `AccessStack(...)`: the environment error, else the stack. */
  method NewAccessStack(config: N8nConfig, environment: string, constructId: string, kwargs: PropOverrides,
                        compute: ComputeStack)
    returns (r: Result<AccessStack>)
    modifies compute.network.n8nSecurityGroup`ingress
    ensures r.Failure? <==> environment !in config.environments
    ensures r.Failure? ==> r.error == EnvironmentNotFound(environment)
    ensures r.Failure? ==> compute.network.n8nSecurityGroup.ingress == old(compute.network.n8nSecurityGroup.ingress)
    ensures r.Success? ==>
      && fresh(r.value) && fresh(r.value.base)
      && r.value.base.Resolved(config, environment, constructId, kwargs)
      && r.value.compute == compute && r.value.accessConfig == r.value.base.envConfig.settings.access
      && r.value.Built()
      && compute.network.n8nSecurityGroup.ingress
         == old(compute.network.n8nSecurityGroup.ingress)
            + (if GatewayMode(r.value.accessConfig) then [GatewayIngress(compute.network.vpc)] else [])
      && r.value.base.outputs == AccessOutputs(r.value.base.stackName, r.value.base.envConfig.region,
                                               r.value.accessConfig, r.value.api != null, r.value.distribution != null)
    ensures r.Success? && r.value.webAcl.Some? ==> r.value.distribution != null
  {
    var b := NewBaseStack(config, environment, constructId, kwargs);
    if b.Failure? {
      return Failure(b.error);
    }
    var stack := new AccessStack(b.value, compute);
    return Success(stack);
  }
}
