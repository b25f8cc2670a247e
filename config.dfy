/** The resolved, defaults-merged configuration the stacks read. Only the
    attributes the stacks consult are modelled; each block the Python code
    tests for presence (`if settings.access:`) is an Option, and each string
    it only tests for truthiness is a string whose empty value means "unset". */
module Config {
  import opened Common

  /** An insertion-ordered string dictionary (Python dict). */
  type Dict = seq<(string, string)>

  datatype AccessType = ApiGateway | Cloudflare

  datatype NetworkingConfig = NetworkingConfig(
    useExistingVpc: bool,
    vpcId: string,
    subnetIds: seq<string>,
    vpcCidr: string,
    natGateways: int,
    availabilityZones: seq<string>)

  /** A serverless capacity value; a float in the source, kept opaque here. */
  datatype Capacity = Capacity(literal: string)

  datatype DatabaseConfig = DatabaseConfig(
    useExisting: bool,
    connectionSecretArn: string,
    auroraServerless: map<string, Capacity>,  // empty map and None are both falsy
    instanceClass: string,
    multiAz: bool,
    backupRetentionDays: nat)

  datatype ScalingConfig = ScalingConfig(
    minTasks: int,
    maxTasks: int,
    targetCpuUtilization: int,
    scaleInCooldown: int,
    scaleOutCooldown: int)

  datatype CloudflareConfig = CloudflareConfig(
    tunnelName: string,
    tunnelDomain: string,
    tunnelTokenSecretName: string,
    accessEnabled: bool,
    accessAllowedEmails: seq<string>,
    accessAllowedDomains: seq<string>)

  datatype AccessConfig = AccessConfig(
    accessType: AccessType,
    cloudfrontEnabled: bool,
    wafEnabled: bool,
    ipWhitelist: seq<string>,
    domainName: string,
    corsOrigins: seq<string>,
    cloudflare: Option<CloudflareConfig>)

  datatype MonitoringConfig = MonitoringConfig(
    alarmEmail: string,
    enableContainerInsights: bool,
    customMetricsNamespace: string)

  datatype FargateConfig = FargateConfig(spotPercentage: int)

  /** A value of the free-form `features` dictionary. */
  datatype FeatureValue = Flag(enabled: bool) | Names(names: seq<string>)

  /** Python truthiness of a feature value. */
  predicate Truthy(v: FeatureValue)
  {
    match v
    case Flag(b) => b
    case Names(ns) => |ns| > 0
  }

  datatype Settings = Settings(
    networking: NetworkingConfig,
    database: DatabaseConfig,
    scaling: Option<ScalingConfig>,
    access: Option<AccessConfig>,
    monitoring: Option<MonitoringConfig>,
    features: map<string, FeatureValue>,  // None and {} are both falsy
    fargate: Option<FargateConfig>)

  datatype EnvironmentConfig = EnvironmentConfig(
    account: string,
    region: string,
    tags: Dict,
    settings: Settings)

  datatype GlobalConfig = GlobalConfig(
    projectName: string,
    organization: string,
    tags: Dict,
    costAllocationTags: seq<string>)

  /** Shared resources by category ("security", "networking", "storage") and name. */
  type SharedResources = map<string, map<string, string>>

  datatype N8nConfig = N8nConfig(
    globalConfig: GlobalConfig,
    environments: map<string, EnvironmentConfig>,
    sharedResources: Option<SharedResources>)
}
