# n8n-deploy stack decisions in Dafny

This project models the decision layer of the n8n-deploy AWS CDK application. That layer is the six stacks that turn a configuration file into a set of AWS resources for one environment:

- **base**: the shared `N8nBaseStack`;
- **network**: the VPC, subnets and security groups;
- **database**: an imported database, Aurora Serverless v2 or an RDS instance, plus its secret;
- **compute**: the ECS cluster, the Cloudflare tunnel, autoscaling and the resilience hooks;
- **access**: API Gateway, the VPC link, CloudFront, WAF and Route 53, or nothing in Cloudflare mode;
- **monitoring**: the SNS topic, the CloudWatch alarms, the log metric filters and the dashboard.

The model does not build CloudFormation. For every stack it records which resources would be created, with which names, flags, thresholds, ingress rules and outputs, and in which order.

## Structure

- `config.dfy` (module `Config`) holds the configuration shapes the stacks read: environments, settings blocks, access, database, scaling, monitoring, networking and Cloudflare settings.
- `resources.dfy` (module `Resources`) holds the deploy-time values (`Value`: a literal or a token the provider resolves), stack outputs, and a `SecurityGroup` class whose ingress rules are added one by one.
- `common.dfy` (module `Common`) holds `Option`/`Result` and the string helpers the stacks use: join, split, lower/upper case, substring test, replace-all, and decimal rendering of a `nat`.
- `base_stack.dfy` (module `BaseStack`) models the base stack:
  - the Python base class becomes an `N8nBaseStack` object that each stack holds as `base`;
  - `add_output` appends to its `outputs` and `_apply_tags` appends to its `tags`.
- `network.dfy`, `database.dfy`, `compute.dfy`, `access.dfy` and `monitoring.dfy` model one stack each, as a class whose constructor runs the steps of the Python `__init__` in order.
  - The contracts state the whole resulting state as a function of the configuration. For the network, compute, access and monitoring stacks the constructor's contract does; the database constructor stops before the mode choice, and `Provision` and `NewDatabaseStack` state the rest.
  - Each module also has a `New…Stack` method that first runs the base constructor, so the unknown-environment error surfaces as a `Result`.

## Modelling choices

- **Errors are values.** The `ValueError`s the stacks raise become `Failure` results:
  - an unknown environment;
  - an imported VPC without `vpc_id`;
  - an imported database without `connection_secret_arn`;
  - an instance class whose class or size is not a member of the CDK enum.
- **Provider facts are inputs.** The model takes as parameters what only the cloud provider or the CDK library knows:
  - the subnets the provider gives a created or looked-up VPC;
  - whether the Fargate service has a Cloud Map service;
  - the EFS file system id;
  - the enum member names available for `InstanceClass`/`InstanceSize`.
- **Settings arrive already resolved.** The settings blocks (`networking`, `database`) reach the stacks after `merge_with_defaults`, so `settings.networking or NetworkingConfig()` takes the resolved block as its input.
- **Environment classes.** `is_production` accepts `production` and `prod`, and `is_development` accepts `dev` and `development`, both compared case-insensitively (base_stack.py:174-180).
  - Termination protection and the removal policy instead compare the raw name with `production` and with `dev`.
  - So an environment called `PROD` counts as production for resource settings, but it gets no termination protection by default. `BaseStack.ProductionAliasIsNotProtected` states this.

## Model

| member | source | states |
|---|---|---|
| BaseStack.ResolveStackProps | n8n_deploy/stacks/base_stack.py:43-49 | The description defaults to "n8n Serverless - {id} - {env}", and termination protection defaults to env == "production"; a caller-supplied value replaces either default |
| BaseStack.StackNameFor | n8n_deploy/stacks/base_stack.py:51 | The stack name is the stack_name the caller passed, else the construct id |
| BaseStack.RemovalPolicyFor | n8n_deploy/stacks/base_stack.py:57 | The policy is DESTROY exactly when the environment is "dev", RETAIN otherwise |
| BaseStack.ProductionExcludesDevelopment | n8n_deploy/stacks/base_stack.py:174-180 | No environment name is both production and development |
| BaseStack.ClassificationIgnoresCase | n8n_deploy/stacks/base_stack.py:174-180 | Upper-casing a name does not change whether it is production or development |
| BaseStack.ProductionAliasIsNotProtected | n8n_deploy/stacks/base_stack.py:43-57 | "PROD" is a production environment, yet it gets no termination protection by default; its removal policy is RETAIN |
| BaseStack.MatchesFromIff | n8n_deploy/stacks/base_stack.py:131-153 | The scan from position k succeeds exactly when some exportable pattern at index >= k is a substring of the name |
| BaseStack.ShouldExportOutputIff | n8n_deploy/stacks/base_stack.py:131-153 | A name is exported exactly when one of the exportable patterns occurs in it (the `any(... in output_name)` test) |
| BaseStack.ExportableWithin | n8n_deploy/stacks/base_stack.py:131-153 | Adding anything before or after an exportable name keeps it exportable |
| BaseStack.ExportableBy | n8n_deploy/stacks/base_stack.py:131-153 | A pattern occurring at a given position makes the name exportable |
| BaseStack.NotExportable | n8n_deploy/stacks/base_stack.py:131-153 | A name missing one character from each pattern matches none of them and is not exported |
| BaseStack.NetworkNamesExported | tests/unit/test_base_stack.py:113-114 | VpcId and SubnetIds are exported |
| BaseStack.SecurityGroupNamesExported | tests/unit/test_base_stack.py:115 | SecurityGroupId and DatabaseSecurityGroupId are exported |
| BaseStack.ServiceArnExported | tests/unit/test_base_stack.py:116 | ServiceArn is exported |
| BaseStack.RandomMetricNotExported | tests/unit/test_base_stack.py:119 | RandomMetric is not exported |
| BaseStack.InternalValueNotExported | tests/unit/test_base_stack.py:120 | InternalValue is not exported |
| BaseStack.MakeOutput | n8n_deploy/stacks/base_stack.py:100-129 | The output keeps its name, value and requested export; an empty description becomes "{name} for {stack}" |
| BaseStack.ExportKey | n8n_deploy/stacks/base_stack.py:118-121 | A requested export name is kept; without one, the output is exported as "{stack}-{name}" exactly when its name is exportable, and otherwise has no export key |
| BaseStack.ExportsExactlyAppend | n8n_deploy/stacks/base_stack.py:100-129 | "Exactly the outputs in set E are exported, under {stack}-{name}" survives concatenating two output lists |
| BaseStack.TemplatedTags | n8n_deploy/stacks/base_stack.py:62-66 | One tag per global tag, in order, with every "{{ environment }}" replaced by the environment name |
| BaseStack.PlainTags | n8n_deploy/stacks/base_stack.py:69-71 | One tag per environment tag, in order, copied unchanged |
| BaseStack.TemplateTags | n8n_deploy/stacks/base_stack.py:62-66 | The loop over the global tags produces exactly TemplatedTags |
| BaseStack.CopyTags | n8n_deploy/stacks/base_stack.py:69-71 | The loop over the environment tags produces exactly PlainTags |
| BaseStack.TagOrder | n8n_deploy/stacks/base_stack.py:59-77 | The applied tags are the templated global tags, then the environment tags, then the four standard tags, with nothing else in between |
| BaseStack.PlaceholderSubstitution | n8n_deploy/stacks/base_stack.py:65 | The bare placeholder becomes the environment name; a value without the placeholder is unchanged |
| BaseStack.N8nBaseStack.constructor | n8n_deploy/stacks/base_stack.py:14-57 | The stack records the config, the environment config, its name (the caller's stack_name, else the construct id), its props and its removal policy; its outputs are empty and its tags are those TagOrder describes |
| BaseStack.N8nBaseStack.ApplyTags | n8n_deploy/stacks/base_stack.py:59-77 | Appends exactly the expected tag list to the stack's tags |
| BaseStack.N8nBaseStack.GetResourceName | n8n_deploy/stacks/base_stack.py:79-98 | The name is "{project}-{env}-{type}", with "-{name}" added when the name is non-empty |
| BaseStack.N8nBaseStack.AddOutput | n8n_deploy/stacks/base_stack.py:100-129 | Appends exactly one output, built as MakeOutput builds it; the other outputs are unchanged |
| BaseStack.N8nBaseStack.GetSharedResource | n8n_deploy/stacks/base_stack.py:155-172 | Returns a value exactly when shared resources, the category and the name are all present, and that value is the stored one |
| BaseStack.N8nBaseStack.GetCostAllocationTags | n8n_deploy/stacks/base_stack.py:182-194 | A key appears exactly when it is a configured cost-allocation key with a known value; a key also present in the global tags takes that tag's value |
| BaseStack.N8nBaseStack.GetComponentEnabled | n8n_deploy/stacks/base_stack.py:196-209 | True exactly when the features hold a "components" list naming the component; failure exactly when "components" is a bare flag, where the source's `in` raises |
| BaseStack.NewBaseStack | n8n_deploy/stacks/base_stack.py:31-37 | Fails with EnvironmentNotFound exactly when the environment is missing; otherwise returns a fresh, initialised stack |
| BaseStack.NamingExamples | tests/unit/test_base_stack.py:34-41 | For project test-n8n and environment test, the names are test-n8n-test-vpc, -vpc-main and -sg-n8n, and the prefix is test-n8n-test |
| BaseStack.ResourceNamesStartWithPrefix | n8n_deploy/stacks/base_stack.py:79-98 | Every resource name starts with "{stack_prefix}-" |
| Resources.OutputNames | n8n_deploy/stacks/base_stack.py:100-129 | The names of an output list, position by position |
| Resources.SecurityGroup.constructor | n8n_deploy/stacks/network_stack.py:141-180 | A new group has the given name and outbound flag, no ingress rules, and its id is a deploy-time token |
| Resources.SecurityGroup.Imported | n8n_deploy/stacks/network_stack.py:253-255 | An imported group has the literal id, no name, all outbound allowed and no rules |
| Resources.SecurityGroup.AddIngressRule | n8n_deploy/stacks/network_stack.py:154-158 | Appends exactly one rule |
| Network.SubnetTiers | n8n_deploy/stacks/network_stack.py:80-95 | A public /24 tier comes first, and a private /24 tier exists exactly when NAT gateways > 0 |
| Network.MaxAzs | n8n_deploy/stacks/network_stack.py:120-131 | The configured zone count if non-empty, else 3 for production, 2 for the literal "staging" and 1 otherwise; the result is always >= 1 |
| Network.ZoneDefaultsByCase | n8n_deploy/stacks/network_stack.py:120-131 | "PROD" maps to 3 zones, "staging" to 2 and "Staging" to 1: the staging comparison is case-sensitive |
| Network.PreferNonEmpty | n8n_deploy/stacks/network_stack.py:62-66 | The first list if it is non-empty, else the second |
| Network.CreatedSubnets | n8n_deploy/stacks/network_stack.py:133-139 | The private subnets when there are any, else the public ones |
| Network.ImportVpc | n8n_deploy/stacks/network_stack.py:52-60 | Fails with MissingField(vpc_id) exactly when vpc_id is empty; otherwise an imported VPC with that id |
| Network.CreateVpc | n8n_deploy/stacks/network_stack.py:76-118 | The VPC is named by GetResourceName("vpc"); it logs rejected flows exactly in production; its tiers follow the NAT count and its zone count follows MaxAzs; it has the provider's public subnets, and private subnets only when there is a private tier |
| Network.CreatedVpcWorkloadSubnets | n8n_deploy/stacks/network_stack.py:133-139 | With no NAT gateways a created VPC's workloads run in the provider's public subnets; with NAT gateways and private subnets, in the private ones |
| Network.SubnetsFromIds | n8n_deploy/stacks/network_stack.py:69-74 | One imported subnet per id, in order, at the matching index |
| Network.ImportedSubnetIdsDistinct | n8n_deploy/stacks/network_stack.py:69-74 | Different positions give different construct ids ("ImportedSubnet{i}"), so importing never creates two constructs with the same id |
| Network.NatToStringInjective | n8n_deploy/stacks/network_stack.py:71 | Decimal rendering is injective, which keeps the subnet construct ids unique |
| Network.SubnetIdValues | n8n_deploy/stacks/network_stack.py:188-191 | The subnet id of each subnet, in order |
| Network.ZoneSet | n8n_deploy/stacks/network_stack.py:208-215 | The set of availability zones is exactly the zones of the subnets |
| Network.NetworkOutputsPresent | n8n_deploy/stacks/network_stack.py:182-215 | Four outputs (VpcId, SubnetIds, the two group ids) in order, plus AvailabilityZones only for a created VPC; SubnetIds joins the ids with "," and the zones join the zone set |
| Network.NetworkIdsExported | n8n_deploy/stacks/network_stack.py:184-206 | The first four outputs are exported as "{stack}-{name}" |
| Network.ZonesNotExported | n8n_deploy/stacks/network_stack.py:208-215 | The AvailabilityZones output carries no export key |
| Network.ChooseSubnets | n8n_deploy/stacks/network_stack.py:38-43 | Imported with ids: one subnet per id. Imported without ids: public, else private. Created: CreatedSubnets |
| Network.NetworkStack.ConfigureGroups | n8n_deploy/stacks/network_stack.py:141-180 | The n8n group gets exactly the self-referencing all-TCP rule; the EFS group gets exactly the NFS 2049 rule from the n8n group |
| Network.NetworkStack.AddOutputs | n8n_deploy/stacks/network_stack.py:182-215 | Appends exactly NetworkOutputs for this VPC, these subnets and these groups |
| Network.NetworkStack.constructor | n8n_deploy/stacks/network_stack.py:16-50 | The VPC is imported or created as the setting says; the subnets are chosen as ChooseSubnets says; both groups are fresh, named and configured; the outputs are appended |
| Network.NetworkStack.FromOutputs | n8n_deploy/stacks/network_stack.py:217-257 | A stack rebuilt from exported ids: no base stack, an imported VPC, one subnet per id, and two imported groups with those ids and no rules |
| Network.NewNetworkStack | n8n_deploy/stacks/network_stack.py:16-60 | Fails exactly when the environment is missing, or when an imported VPC has no id, each with its own error; otherwise a fresh stack on a resolved base whose VPC, subnets, groups and outputs are those the constructor states |
| Database.DatabaseMode | n8n_deploy/stacks/database_stack.py:46-52 | use_existing selects import; otherwise Aurora exactly when aurora_serverless is non-empty, else RDS; the three modes partition the configs |
| Database.ParseInstanceClass | n8n_deploy/stacks/database_stack.py:178-192 | A string that is empty or does not split into three dot-parts gives the default type. Otherwise the upper-cased class and size are looked up, and an unknown member fails with that enum's error |
| Database.ParseWellFormed | n8n_deploy/stacks/database_stack.py:178-192 | For "p.class.size" without extra dots, the parse succeeds exactly when both upper-cased parts are enum members, and yields them |
| Database.TwoPartsKeepDefault | n8n_deploy/stacks/database_stack.py:183-186 | A two-part class such as "t3.micro" silently keeps the default type |
| Database.AuroraCapacities | n8n_deploy/stacks/database_stack.py:120-122 | min and max capacity come from the map when present, else from the defaults 0.5 and 1 |
| Database.CapacityDefaultsIndependent | n8n_deploy/stacks/database_stack.py:120-122 | Setting one capacity never changes the other |
| Database.AuroraClusterFor | n8n_deploy/stacks/database_stack.py:124-158 | The cluster is named "aurora", encrypted, with the Data API on and the configured retention; deletion protection and writer performance insights are on exactly in production; it uses the stack's removal policy and sits in the given subnets behind the given group only |
| Database.RdsInstanceFor | n8n_deploy/stacks/database_stack.py:194-221 | The instance is named "rds", encrypted and private, with 20 GB, multi-AZ and retention as configured; deletion protection and performance insights are on exactly in production; it sits in the given subnets behind the given group only |
| Database.DatabaseOutputsExport | n8n_deploy/stacks/database_stack.py:225-244 | Every database output except DatabaseSecretArn has an export key |
| Database.OutputNamesByMode | n8n_deploy/stacks/database_stack.py:225-244 | Imported: the secret and group outputs. Provisioned: the endpoint, then the secret, then the group |
| Database.DatabaseStack.constructor | n8n_deploy/stacks/database_stack.py:37-75 | A fresh "database" group without all-outbound, whose only rule is TCP 5432 from the n8n group; nothing is provisioned yet |
| Database.DatabaseStack.ImportExistingDatabase | n8n_deploy/stacks/database_stack.py:77-91 | Fails with MissingField(connection_secret_arn) and changes nothing exactly when the ARN is empty; otherwise imports that secret and sets no endpoint |
| Database.DatabaseStack.CreateAuroraServerless | n8n_deploy/stacks/database_stack.py:93-160 | Sets the generated secret, AuroraClusterFor and the cluster endpoint |
| Database.DatabaseStack.CreateRdsInstance | n8n_deploy/stacks/database_stack.py:162-223 | Sets the generated secret; a parse failure is returned with no instance created; otherwise sets RdsInstanceFor with the parsed type and the instance endpoint |
| Database.DatabaseStack.AddOutputs | n8n_deploy/stacks/database_stack.py:225-244 | Appends exactly DatabaseOutputs for the current endpoint, secret and group |
| Database.DatabaseStack.Provision | n8n_deploy/stacks/database_stack.py:45-55 | Fails exactly on a missing import ARN or a bad RDS class; otherwise each mode leaves exactly its own secret, cluster or instance, and endpoint. Outputs are added only on success |
| Database.NewDatabaseStack | n8n_deploy/stacks/database_stack.py:18-55 | Fails exactly on a missing environment, a missing import ARN or a bad RDS class, each with its own error; otherwise a fresh stack on a resolved base with the locked-down group, the mode's secret, cluster or instance (placed in the network stack's subnets behind that group) and endpoint, and exactly the database outputs |
| Compute.NoScalingWithoutRange | n8n_deploy/stacks/compute_stack.py:89-93 | No scaling block, or max_tasks <= min_tasks, means no autoscaling |
| Compute.ContainerInsights | n8n_deploy/stacks/compute_stack.py:120-124 | Follows the monitoring setting when present, else is on exactly in production |
| Compute.TunnelSettings | n8n_deploy/stacks/compute_stack.py:205-231 | The name defaults to "n8n-{env}" and the domain to "n8n-{env}.example.com"; service URL localhost:5678; the access policy is present exactly when access is enabled, carrying the allowed emails and domains |
| Compute.DefaultDomainExtendsName | n8n_deploy/stacks/compute_stack.py:210-211 | With both defaults, the domain is the tunnel name followed by ".example.com" |
| Compute.ScalingPolicies | n8n_deploy/stacks/compute_stack.py:136-168 | The CPU target policy with the configured cooldowns always comes first; the memory step policy (300 s cooldown) is added exactly in production |
| Compute.ComputeOutputNames | n8n_deploy/stacks/compute_stack.py:251-319 | The outputs are the five fixed ones; then ServiceDiscoveryName when the service has Cloud Map; then LogGroupName; then the three tunnel outputs exactly when the tunnel outputs are wanted |
| Compute.FixedOutputsExport | n8n_deploy/stacks/compute_stack.py:253-280 | Among the fixed outputs, exactly ClusterArn and ServiceArn are exported |
| Compute.TunnelOutputsExport | n8n_deploy/stacks/compute_stack.py:297-319 | No tunnel output is exported |
| Compute.ComputeOutputsExport | n8n_deploy/stacks/compute_stack.py:251-319 | Across all compute outputs, exactly ClusterArn and ServiceArn are exported |
| Compute.ComputeStack.constructor | n8n_deploy/stacks/compute_stack.py:52-100 | Depends on the network then the storage stack; the cluster is named with its insights flag; the tunnel, scaling and resilience gates each apply exactly when their condition holds; the outputs are appended |
| Compute.ComputeStack.ApplyGates | n8n_deploy/stacks/compute_stack.py:81-97 | Tunnel exactly when Cloudflare mode has settings; a scalable target and policies exactly when max > min; the alert topic and three container variables exactly when resilience is on |
| Compute.ComputeStack.AddDependency | n8n_deploy/stacks/compute_stack.py:58-59 | Appends one dependency |
| Compute.ComputeStack.SetupCloudflareTunnel | n8n_deploy/stacks/compute_stack.py:205-245 | Records TunnelSettings for the Cloudflare settings |
| Compute.ComputeStack.SetupAutoScaling | n8n_deploy/stacks/compute_stack.py:126-168 | The scalable target spans min..max tasks, and the policies are ScalingPolicies |
| Compute.ComputeStack.AddEnvironment | n8n_deploy/stacks/compute_stack.py:194-203 | Appends one container environment variable |
| Compute.ComputeStack.AddResilienceMechanisms | n8n_deploy/stacks/compute_stack.py:170-203 | Creates the "resilience-alerts" topic and appends the two DLQ variables and the circuit-breaker variable |
| Compute.ComputeStack.AddOutputs | n8n_deploy/stacks/compute_stack.py:251-319 | Appends exactly ComputeOutputs for the service, the settings and the tunnel |
| Compute.ComputeStack.AddFixedOutputs | n8n_deploy/stacks/compute_stack.py:253-280 | Appends the five cluster, service and task definition outputs |
| Compute.ComputeStack.AddServiceOutputs | n8n_deploy/stacks/compute_stack.py:282-295 | Appends the discovery output when Cloud Map is present, then the log group output |
| Compute.ComputeStack.AddTunnelOutputs | n8n_deploy/stacks/compute_stack.py:297-319 | Appends the three tunnel outputs |
| Compute.ComputeStack.ServiceSecurityGroup | n8n_deploy/stacks/compute_stack.py:327-329 | It is the network stack's n8n group |
| Compute.NewComputeStack | n8n_deploy/stacks/compute_stack.py:27-100 | Fails exactly when the environment is missing; otherwise a fresh stack on a resolved base with the dependencies, the named cluster, every gate applied as its condition says, and exactly the compute outputs |
| Access.TunnelModeExcludesGateway | n8n_deploy/stacks/access_stack.py:50-73 | The gateway path is skipped exactly in Cloudflare mode, and then neither CloudFront nor WAF is wanted |
| Access.CorsFor | n8n_deploy/stacks/access_stack.py:106-115 | CORS is configured exactly when access settings exist, with their origins and a one-day max age |
| Access.RoutesNeedCloudMap | n8n_deploy/stacks/access_stack.py:118-146 | No routes without a Cloud Map service; otherwise "/{proxy+}" then "/", both to that service |
| Access.HttpApi.constructor | n8n_deploy/stacks/access_stack.py:100-115 | The API gets the given name, description and CORS setting, and no routes |
| Access.HttpApi.AddRoutes | n8n_deploy/stacks/access_stack.py:134-146 | Appends one route |
| Access.PriceClassFor | n8n_deploy/stacks/access_stack.py:225-229 | PRICE_CLASS_100 exactly for development environments |
| Access.ExtraBehaviorsUncached | n8n_deploy/stacks/access_stack.py:236-259 | "/webhook/*" then "/rest/*": both uncached, HTTPS-only, to the API origin |
| Access.Distribution.constructor | n8n_deploy/stacks/access_stack.py:207-234 | The distribution gets the given default behaviour, domains, certificate, price class and comment, and no extra behaviours |
| Access.Distribution.AddBehavior | n8n_deploy/stacks/access_stack.py:237-259 | Appends one behaviour |
| Access.WafRuleList | n8n_deploy/stacks/access_stack.py:263-346 | The common rule set comes first (priority 10), then the IP rate limit of 2000 that blocks (20), then the priority-1 allow rule exactly when there is a whitelist; the default action is block exactly when some rule allows |
| Access.LastTwo | n8n_deploy/stacks/access_stack.py:382 | The last min(2, n) labels, forming a suffix of the list |
| Access.ZoneNameIsSuffix | n8n_deploy/stacks/access_stack.py:382 | The zone name is a suffix of the domain, and is the whole domain when the domain has at most two labels |
| Access.AccessOutputNames | n8n_deploy/stacks/access_stack.py:395-442 | Gateway mode: ApiUrl and ApiId when the API exists. Cloudflare: AccessType, plus AccessUrl with a tunnel domain. With a distribution: DistributionUrl, DistributionId, plus CustomDomainUrl with a domain |
| Access.AccessUrlValue | n8n_deploy/stacks/access_stack.py:408-421 | In Cloudflare mode with a domain, the outputs are "CloudflareTunnel" and "https://{domain}" |
| Access.ModeOutputsExport | n8n_deploy/stacks/access_stack.py:395-442 | Among the mode outputs, exactly ApiUrl is exported |
| Access.DistributionOutputsExport | n8n_deploy/stacks/access_stack.py:423-442 | No distribution output is exported |
| Access.AccessOutputsExport | n8n_deploy/stacks/access_stack.py:395-442 | Across all access outputs, exactly ApiUrl is exported |
| Access.AccessStack.constructor | n8n_deploy/stacks/access_stack.py:25-76 | Gateway mode builds the link, the API, the edge and the domain, and adds the VPC-CIDR ingress rule; Cloudflare mode builds nothing and adds no rule; the outputs are appended |
| Access.AccessStack.BuildGateway | n8n_deploy/stacks/access_stack.py:50-68 | The VPC link, the configured API, CloudFront/WAF exactly as enabled, the custom domain; exactly one ingress rule is added |
| Access.AccessStack.BuildEdge | n8n_deploy/stacks/access_stack.py:58-64 | A distribution exactly when CloudFront is enabled; a web ACL exactly when WAF is also enabled; an IP set exactly with a whitelist |
| Access.AccessStack.CreateVpcLink | n8n_deploy/stacks/access_stack.py:78-89 | The link is named "vpc-link" and uses the network's subnets and the n8n group |
| Access.AccessStack.CreateApiGateway | n8n_deploy/stacks/access_stack.py:91-154 | The API is named "api", with CORS per CorsFor and the routes per RoutesNeedCloudMap; one VPC-CIDR ingress rule for port 5678 is added |
| Access.AccessStack.CreateCloudFrontDistribution | n8n_deploy/stacks/access_stack.py:156-261 | Default behaviour to the API origin with redirect to HTTPS; domain and certificate when given; price class per environment; the two uncached behaviours |
| Access.AccessStack.CreateWafWebAcl | n8n_deploy/stacks/access_stack.py:263-346 | The web ACL is named "waf" with the WafRuleList rules; an IP set named "ip-whitelist" exists exactly when the whitelist is non-empty |
| Access.AccessStack.GetOrCreateCertificate | n8n_deploy/stacks/access_stack.py:354-366 | A certificate exactly when a domain is given and the shared ("security", "certificate_arn") entry is present and non-empty; it is that ARN |
| Access.AccessStack.SetupCustomDomain | n8n_deploy/stacks/access_stack.py:368-393 | Without a domain or a registered zone id, nothing happens. Otherwise the zone is named after the last two labels, and an alias record is created exactly when a distribution exists |
| Access.AccessStack.AddOutputs | n8n_deploy/stacks/access_stack.py:395-442 | Appends exactly AccessOutputs for what was built |
| Access.AccessStack.AddDistributionOutputs | n8n_deploy/stacks/access_stack.py:423-442 | Appends the distribution outputs when a distribution exists |
| Access.AccessStack.AddModeOutputs | n8n_deploy/stacks/access_stack.py:397-421 | Appends the API or Cloudflare outputs for the mode |
| Access.NewAccessStack | n8n_deploy/stacks/access_stack.py:25-76 | Fails exactly when the environment is missing and then changes no ingress; otherwise a fresh stack on a resolved base that built the gateway resources or nothing, as the mode says, added the port-5678 rule exactly in gateway mode, and holds exactly the access outputs; a web ACL only with a distribution |
| Monitoring.CustomNamespace | n8n_deploy/stacks/monitoring_stack.py:466-471 | The configured namespace, or "N8n/Serverless" without monitoring settings |
| Monitoring.AlarmInventory | n8n_deploy/stacks/monitoring_stack.py:23-74 | The alarm ids in order: CPU, memory, task count; EFS with storage; DB CPU and connections for an RDS instance; the two tunnel alarms in Cloudflare mode; failure rate, webhook time; DB errors with any database |
| Monitoring.NameSuffixInjective | n8n_deploy/stacks/monitoring_stack.py:91-304 | Different alarms have different name suffixes |
| Monitoring.AlarmNameInjective | n8n_deploy/stacks/monitoring_stack.py:91-304 | Different alarms get different "{prefix}-…" names |
| Monitoring.InventoryRanked | n8n_deploy/stacks/monitoring_stack.py:23-74 | In every configuration, the inventory is strictly ordered by a fixed rank |
| Monitoring.AlarmsDistinct | n8n_deploy/stacks/monitoring_stack.py:91-692 | No two alarms of one stack share an id or a name, in any configuration |
| Monitoring.StackAlarmNamesDistinct | n8n_deploy/stacks/monitoring_stack.py:100-146 | The alarms a built monitoring stack holds carry pairwise different names "{stack prefix}-{suffix}" |
| Monitoring.AlarmsNotifyOnce | n8n_deploy/stacks/monitoring_stack.py:91-692 | Every alarm has exactly one action: the alarm topic |
| Monitoring.MissingDataBreachesOnlyLiveness | n8n_deploy/stacks/monitoring_stack.py:91-692 | In every configuration, an alarm treats missing data as breaching exactly when it fires below a threshold of 1 (the liveness alarms); every other alarm does not breach on missing data or leaves the library default |
| Monitoring.AlarmedLogMetricsArePublished | n8n_deploy/stacks/monitoring_stack.py:228-692 | Every alarm on a non-AWS namespace watches a metric that some metric filter of the stack publishes, under that name and namespace |
| Monitoring.AwsAlarmsNeedNoFilter | n8n_deploy/stacks/monitoring_stack.py:91-226 | Alarms on AWS/ namespaces need no filter |
| Monitoring.TunnelAlarmsPublished | n8n_deploy/stacks/monitoring_stack.py:228-304 | The tunnel error alarm watches the metric the tunnel error filter publishes |
| Monitoring.CustomMetricsInParts | n8n_deploy/stacks/monitoring_stack.py:485-617 | The workflow, webhook and error filters publish the four metrics the custom alarms watch |
| Monitoring.CustomAlarmsPublished | n8n_deploy/stacks/monitoring_stack.py:619-692 | Every custom alarm watches only published metrics |
| Monitoring.Topic.constructor | n8n_deploy/stacks/monitoring_stack.py:78-84 | The topic gets the given name and display name, and no subscriptions |
| Monitoring.Topic.AddSubscription | n8n_deploy/stacks/monitoring_stack.py:86-87 | Appends one subscription |
| Monitoring.CreateAlarmTopic | n8n_deploy/stacks/monitoring_stack.py:76-89 | The topic is named "alarms", displays "n8n {env} Alarms", and has the email subscriptions AlarmSubscriptions gives |
| Monitoring.SubscriptionIffEmail | n8n_deploy/stacks/monitoring_stack.py:86-87 | At most one subscription, present exactly when an alarm email is set, and addressed to it |
| Monitoring.Dashboard.constructor | n8n_deploy/stacks/monitoring_stack.py:308-314 | The dashboard gets the given name and no rows |
| Monitoring.Dashboard.AddWidgets | n8n_deploy/stacks/monitoring_stack.py:317-376 | Appends one row |
| Monitoring.FlattenAppend | n8n_deploy/stacks/monitoring_stack.py:306-464 | The widgets of two row lists are the widgets of each, in order |
| Monitoring.RowsFitGrid | n8n_deploy/stacks/monitoring_stack.py:306-872 | In any configuration, every dashboard row fits the 24-column grid |
| Monitoring.WidgetOrder | n8n_deploy/stacks/monitoring_stack.py:306-872 | Service and task graphs, then errors; EFS exactly with storage; tunnel widgets exactly in Cloudflare mode; then the seven custom widgets |
| Monitoring.MonitoringOutputsExport | n8n_deploy/stacks/monitoring_stack.py:874-891 | The outputs are AlarmTopicArn, then DashboardUrl, and neither is exported |
| Monitoring.MonitoringStack.constructor | n8n_deploy/stacks/monitoring_stack.py:23-74 | Topic, alarms, filters, dashboard rows and outputs are exactly the expected lists for this storage, database kind, access mode and namespace |
| Monitoring.MonitoringStack.CreateAlarms | n8n_deploy/stacks/monitoring_stack.py:55-65 | Compute alarms; storage alarms with storage; database alarms with a database; tunnel filters and alarms in Cloudflare mode, in that order |
| Monitoring.MonitoringStack.AddAlarm | n8n_deploy/stacks/monitoring_stack.py:91-162 | Appends one alarm |
| Monitoring.MonitoringStack.AddMetricFilter | n8n_deploy/stacks/monitoring_stack.py:485-527 | Appends one metric filter |
| Monitoring.MonitoringStack.CreateComputeAlarms | n8n_deploy/stacks/monitoring_stack.py:91-162 | CPU > 80 and memory > 85 (3 periods, 2 datapoints, not breaching), then tasks < 1 (2 periods, breaching) |
| Monitoring.MonitoringStack.CreateStorageAlarms | n8n_deploy/stacks/monitoring_stack.py:164-187 | EFS burst credits < 1e12 over 1 period, not breaching |
| Monitoring.MonitoringStack.CreateDatabaseAlarms | n8n_deploy/stacks/monitoring_stack.py:189-226 | For an RDS instance: CPU 80 (3/2) and connections 50 (2 periods); nothing for a cluster or no instance |
| Monitoring.MonitoringStack.CreateCloudflareTunnelAlarms | n8n_deploy/stacks/monitoring_stack.py:228-304 | The health and error filters, then health < 1 (3/2, breaching) and errors > 10 (2, Sum) |
| Monitoring.MonitoringStack.CreateDashboard | n8n_deploy/stacks/monitoring_stack.py:306-464 | A dashboard named "dashboard" with the base rows for these storage and access settings |
| Monitoring.MonitoringStack.CreateCustomN8nMetrics | n8n_deploy/stacks/monitoring_stack.py:466-483 | Appends the custom filters, the custom alarms and the custom rows for the configured namespace |
| Monitoring.MonitoringStack.CreateWorkflowExecutionMetrics | n8n_deploy/stacks/monitoring_stack.py:485-527 | Appends the success, failure and duration filters |
| Monitoring.MonitoringStack.CreateWebhookMetrics | n8n_deploy/stacks/monitoring_stack.py:529-558 | Appends the request and response time filters |
| Monitoring.MonitoringStack.CreateErrorMetrics | n8n_deploy/stacks/monitoring_stack.py:560-586 | Appends the authentication and database error filters |
| Monitoring.MonitoringStack.CreatePerformanceMetrics | n8n_deploy/stacks/monitoring_stack.py:588-617 | Appends the node execution time and queue depth filters |
| Monitoring.MonitoringStack.CreateCustomMetricAlarms | n8n_deploy/stacks/monitoring_stack.py:619-692 | Failure rate > 10 % and webhook time > 1000 ms (3/2), plus DB errors > 5 (2 periods) with a database |
| Monitoring.MonitoringStack.AddCustomMetricsToDashboard | n8n_deploy/stacks/monitoring_stack.py:694-872 | Appends three rows: two graphs; one wide graph; four single values |
| Monitoring.MonitoringStack.AddOutputs | n8n_deploy/stacks/monitoring_stack.py:874-891 | Appends the topic ARN and the console dashboard URL |
| Monitoring.NewMonitoringStack | n8n_deploy/stacks/monitoring_stack.py:23-74 | Fails exactly when the environment is missing; otherwise a fresh stack on a resolved base whose topic, alarms, filters, dashboard rows and outputs are exactly the expected ones for what is deployed |

## Left out

- CDK construct internals are out of scope: the Fargate service, the task definition and container images, logging drivers, IAM grants, and the rendering to CloudFormation. The model records what each stack asks for, not the synthesised template.
- Floating-point values (Aurora capacities, Duration objects) are kept as literal values or integer seconds. No arithmetic is done on them.
- Alarm names and descriptions are derived from a fixed alarm id plus the stack prefix; the human-readable description strings are not reproduced.
- Common.ToUpper, Common.ToLower: only ASCII letters change case. Python's `str.upper`/`str.lower` follow Unicode (`"ſ".upper()` is `"S"`), so an environment name with non-ASCII letters can classify differently.
- BaseStack.StackNameFor: a stack placed inside a `Stage` or another construct gets a path-derived name from CDK; the model covers only a stack placed directly in the app, or one given an explicit `stack_name`.
- Widget metrics are not modelled: widget titles, graph metric lists, periods, statistics and log queries. The model keeps which widget each one is, its width and its row placement.
- Metric filter patterns and metric values are not modelled; each filter records its metric name and namespace.
- Monitoring.MonitoringStack.CreateDatabaseAlarms: threshold, periods, datapoints and actions are modelled; the comparison operator and the missing-data treatment the library defaults to are left unset (None).
- Compute.ComputeStack.constructor: the capacity-provider branch behind `is_spot_enabled` is only `pass` (compute_stack.py:113-116), so it has no model.
- BaseStack.N8nBaseStack.IsSpotEnabled: kept as the source's expression (a Fargate block with a positive spot percentage) with no contract of its own, because its only consumer is that `pass` branch.
- Access.AccessStack.CreateApiGateway: the per-route throttling branch (access_stack.py:149-152) is `pass` and has no model.
- Access.AccessStack.AssociateWafWithCloudFront does nothing in the source (access_stack.py:348-352), so it has no contract.
- Access.CorsFor: the `["*"]` fallback for origins is unreachable (it sits inside a branch that already requires access settings), so it has no model.
- The storage stack, models.py (settings parsing and `merge_with_defaults`) and the N8nFargateService, CloudflareTunnel and ResilientN8n constructs are not part of this model. Their results enter as handles or parameters.
- Tags are recorded on the stack in application order; propagating them to each resource (the CDK `Tags.of` aspect) is not modelled.
- BaseStack.N8nBaseStack.GetSharedResource reads the shared-resource map directly; the `getattr` on a settings object is modelled as a map lookup.
- Network.NetworkStack.FromOutputs: `import_from_outputs` bypasses the base constructor. The rebuilt stack therefore has no base stack; config, tags and outputs stay unset.
- The `account_id` and `region` properties (base_stack.py:228-236) have no members of their own: they return the `account` and `region` of the environment block of the n8n configuration, which the model reads directly as `envConfig.account` and `envConfig.region`. `environment_name` is the `environmentName` field.
