/** `DatabaseStack`: the database security group, then exactly one of three
    modes (import an existing database, create an Aurora Serverless cluster,
    or create a fixed-size instance), then the database outputs. */
module Database {
  import opened Common
  import opened Config
  import opened Resources
  import opened BaseStack
  import opened Network

  datatype DbMode = ImportExisting | AuroraServerless | RdsInstance

  /** The mode `__init__` runs: import wins, then a non-empty Aurora block, else an instance. */
  function DatabaseMode(db: DatabaseConfig): (m: DbMode)
    ensures m == ImportExisting <==> db.useExisting
    ensures m == AuroraServerless <==> !db.useExisting && |db.auroraServerless| > 0
    ensures m == RdsInstance <==> !db.useExisting && |db.auroraServerless| == 0
  {
    if db.useExisting then ImportExisting
    else if |db.auroraServerless| > 0 then AuroraServerless
    else RdsInstance
  }

  /** An instance type by the member names of the library's class and size enumerations. */
  datatype InstanceType = InstanceType(instanceClass: string, size: string)

  /** The member names the library's `InstanceClass` and `InstanceSize` enumerations define. */
  datatype InstanceCatalog = InstanceCatalog(classes: set<string>, sizes: set<string>)

  const DefaultInstanceType := InstanceType("T4G", "MICRO")
  const WriterInstanceType := InstanceType("T3", "MEDIUM")

  /** The instance-class parsing of `_create_rds_instance`: a "prefix.class.size" string names
      the upper-cased class and size, any other shape keeps the default, and an upper-cased
      name the enumeration lacks is the `getattr` error (the class is looked up first). */
  function ParseInstanceClass(instanceClass: string, catalog: InstanceCatalog): (r: Result<InstanceType>)
    ensures instanceClass == "" || |Split(instanceClass, '.')| != 3 ==> r == Success(DefaultInstanceType)
    ensures instanceClass != "" && |Split(instanceClass, '.')| == 3 ==>
      var parts := Split(instanceClass, '.');
      && (r.Success? <==> ToUpper(parts[1]) in catalog.classes && ToUpper(parts[2]) in catalog.sizes)
      && (r.Success? ==> r.value == InstanceType(ToUpper(parts[1]), ToUpper(parts[2])))
      && (ToUpper(parts[1]) !in catalog.classes ==> r == Failure(UnknownEnumMember("InstanceClass", ToUpper(parts[1]))))
      && (ToUpper(parts[1]) in catalog.classes && ToUpper(parts[2]) !in catalog.sizes ==>
            r == Failure(UnknownEnumMember("InstanceSize", ToUpper(parts[2]))))
  {
    if instanceClass == "" then Success(DefaultInstanceType)
    else
      var parts := Split(instanceClass, '.');
      if |parts| != 3 then Success(DefaultInstanceType)
      else
        var className, sizeName := ToUpper(parts[1]), ToUpper(parts[2]);
        if className !in catalog.classes then Failure(UnknownEnumMember("InstanceClass", className))
        else if sizeName !in catalog.sizes then Failure(UnknownEnumMember("InstanceSize", sizeName))
        else Success(InstanceType(className, sizeName))
  }

  /** Splitting at the first separator peels off the part before it. */
  lemma SplitFirst(x: string, y: string, c: char)
    requires c !in x
    ensures Split(x + [c] + y, c) == [x] + Split(y, c)
  {
    var s := x + [c] + y;
    assert s[|x|] == c;
    IndexOfAtMost(s, c, |x|);
    forall j | 0 <= j < |x| ensures s[j] != c {
      assert s[j] == x[j];
    }
    var k := IndexOf(s, c);
    assert k == |x|;
    assert s[..k] == x && s[k + 1..] == y;
  }

  /** The three pieces of "prefix.class.size", when none of them holds a dot. */
  lemma SplitThree(prefix: string, className: string, size: string)
    requires '.' !in prefix && '.' !in className && '.' !in size
    ensures Split(prefix + "." + className + "." + size, '.') == [prefix, className, size]
  {
    SplitFirst(className, size, '.');
    assert (prefix + "." + className + "." + size) == prefix + ['.'] + (className + ['.'] + size);
    SplitFirst(prefix, className + ['.'] + size, '.');
  }

  /** Parsing recovers the class and size of a well-formed class string, upper-cased,
      whenever the enumerations know them. */
  lemma ParseWellFormed(prefix: string, className: string, size: string, catalog: InstanceCatalog)
    requires '.' !in prefix && '.' !in className && '.' !in size
    ensures var r := ParseInstanceClass(prefix + "." + className + "." + size, catalog);
      && (r.Success? <==> ToUpper(className) in catalog.classes && ToUpper(size) in catalog.sizes)
      && (r.Success? ==> r.value == InstanceType(ToUpper(className), ToUpper(size)))
  {
    SplitThree(prefix, className, size);
  }

  /** A two-part string such as "t4g.micro" keeps the default instance type. */
  lemma TwoPartsKeepDefault(className: string, size: string, catalog: InstanceCatalog)
    requires '.' !in className && '.' !in size
    ensures ParseInstanceClass(className + "." + size, catalog) == Success(DefaultInstanceType)
  {
    SplitFirst(className, size, '.');
    assert className + "." + size == className + ['.'] + size;
    assert Split(size, '.') == [size];
  }

  const DefaultMinCapacity := Capacity("0.5")
  const DefaultMaxCapacity := Capacity("1.0")

  /** Aurora minimum and maximum capacity, each read from its own key or defaulted. */
  function AuroraCapacities(aurora: map<string, Capacity>): (r: (Capacity, Capacity))
    ensures r.0 == (if "min_capacity" in aurora then aurora["min_capacity"] else DefaultMinCapacity)
    ensures r.1 == (if "max_capacity" in aurora then aurora["max_capacity"] else DefaultMaxCapacity)
  {
    (if "min_capacity" in aurora then aurora["min_capacity"] else DefaultMinCapacity,
     if "max_capacity" in aurora then aurora["max_capacity"] else DefaultMaxCapacity)
  }

  /** Setting one capacity key leaves the other capacity as it was. */
  lemma CapacityDefaultsIndependent(aurora: map<string, Capacity>, v: Capacity)
    ensures AuroraCapacities(aurora["max_capacity" := v]).0 == AuroraCapacities(aurora).0
    ensures AuroraCapacities(aurora["min_capacity" := v]).1 == AuroraCapacities(aurora).1
    ensures AuroraCapacities(aurora["min_capacity" := v]).0 == v
  {
  }

  /** The credentials secret: imported by ARN, or generated by the stack. */
  datatype Secret =
    | ImportedSecret(arn: string)
    | GeneratedSecret(secretName: string, description: string)

  function SecretArn(s: Secret): Value
  {
    match s
    case ImportedSecret(arn) => Lit(arn)
    case GeneratedSecret(_, _) => Attr("DatabaseSecret", "SecretArn")
  }

  function GeneratedSecretFor(environment: string): Secret
  {
    GeneratedSecret("n8n/" + environment + "/db-credentials", "n8n database credentials for " + environment)
  }

  datatype WriterInstance = WriterInstance(instanceType: InstanceType, performanceInsights: bool)

  datatype DbCluster = DbCluster(
    identifier: string,
    minCapacity: Capacity,
    maxCapacity: Capacity,
    backupRetentionDays: nat,
    dataApi: bool,
    storageEncrypted: bool,
    deletionProtection: bool,
    removalPolicy: RemovalPolicy,
    writer: WriterInstance,
    subnets: seq<Subnet>,
    securityGroupIds: seq<Value>)

  datatype DbInstance = DbInstance(
    identifier: string,
    instanceType: InstanceType,
    allocatedStorageGb: nat,
    multiAz: bool,
    backupRetentionDays: nat,
    performanceInsights: bool,
    deletionProtection: bool,
    publiclyAccessible: bool,
    storageEncrypted: bool,
    removalPolicy: RemovalPolicy,
    subnets: seq<Subnet>,
    securityGroupIds: seq<Value>)

  /** The Aurora cluster of `_create_aurora_serverless`, placed in `subnets` (through its
      subnet group) behind the group `groupId`. */
  function AuroraClusterFor(b: N8nBaseStack, db: DatabaseConfig, subnets: seq<Subnet>, groupId: Value): (c: DbCluster)
    ensures c.identifier == b.GetResourceName("aurora", "")
    ensures (c.minCapacity, c.maxCapacity) == AuroraCapacities(db.auroraServerless)
    ensures c.storageEncrypted && c.dataApi && c.backupRetentionDays == db.backupRetentionDays
    ensures c.deletionProtection <==> IsProduction(b.environmentName)
    ensures c.writer.instanceType == WriterInstanceType
    ensures c.writer.performanceInsights <==> IsProduction(b.environmentName)
    ensures c.removalPolicy == b.removalPolicy
    ensures c.subnets == subnets && c.securityGroupIds == [groupId]
  {
    var capacities := AuroraCapacities(db.auroraServerless);
    DbCluster(b.GetResourceName("aurora", ""), capacities.0, capacities.1, db.backupRetentionDays, true, true,
              IsProduction(b.environmentName), b.removalPolicy,
              WriterInstance(WriterInstanceType, IsProduction(b.environmentName)), subnets, [groupId])
  }

  /** The instance of `_create_rds_instance`, given its parsed type, placed in `subnets`
      behind the group `groupId`. */
  function RdsInstanceFor(b: N8nBaseStack, db: DatabaseConfig, instanceType: InstanceType, subnets: seq<Subnet>,
                          groupId: Value): (i: DbInstance)
    ensures i.identifier == b.GetResourceName("rds", "") && i.instanceType == instanceType
    ensures i.allocatedStorageGb == 20 && i.multiAz == db.multiAz && i.backupRetentionDays == db.backupRetentionDays
    ensures i.storageEncrypted && !i.publiclyAccessible
    ensures i.deletionProtection <==> IsProduction(b.environmentName)
    ensures i.performanceInsights <==> IsProduction(b.environmentName)
    ensures i.removalPolicy == b.removalPolicy
    ensures i.subnets == subnets && i.securityGroupIds == [groupId]
  {
    DbInstance(b.GetResourceName("rds", ""), instanceType, 20, db.multiAz, db.backupRetentionDays,
               IsProduction(b.environmentName), IsProduction(b.environmentName), false, true, b.removalPolicy,
               subnets, [groupId])
  }

  const ClusterEndpoint := Attr("AuroraCluster", "ClusterEndpointSocketAddress")
  const InstanceEndpoint := Concat([Attr("Database", "DbInstanceEndpointAddress"), Lit(":"),
                                    Attr("Database", "DbInstanceEndpointPort")])

  /** `_add_outputs`: the endpoint when one is set, the secret ARN when a secret is held,
      and always the security group. */
  function DatabaseOutputs(stackName: string, endpoint: Option<Value>, secret: Option<Secret>, groupId: Value): seq<Output>
  {
    (if endpoint.Some? then [MakeOutput(stackName, "DatabaseEndpoint", endpoint.value, "Database endpoint", None)] else [])
    + (if secret.Some? then [MakeOutput(stackName, "DatabaseSecretArn", SecretArn(secret.value),
                                       "Database credentials secret ARN", None)] else [])
    + [MakeOutput(stackName, "DatabaseSecurityGroupId", groupId, "Database security group ID", None)]
  }

  /** The secret ARN output matches no whitelist entry, so it is never exported. */
  lemma SecretArnNotExportable()
    ensures !ShouldExportOutput("DatabaseSecretArn")
  {
    NotExportable("DatabaseSecretArn", "VuGCvLpEF");
  }

  /** The endpoint and the security group are exported; the secret ARN is not. */
  lemma DatabaseOutputsExport(stackName: string, endpoint: Option<Value>, secret: Option<Secret>, groupId: Value)
    ensures var outs := DatabaseOutputs(stackName, endpoint, secret, groupId);
      forall i :: 0 <= i < |outs| ==>
        (ExportKey(stackName, outs[i]).Some? <==> outs[i].name != "DatabaseSecretArn")
  {
    var outs := DatabaseOutputs(stackName, endpoint, secret, groupId);
    ExportableBy("DatabaseEndpoint", 7, 0);
    SecurityGroupNamesExported();
    SecretArnNotExportable();
  }

  /** The database stack: the security group, the credentials secret and whichever of
      cluster or instance the mode created. */
  class DatabaseStack {
    const base: N8nBaseStack
    const network: NetworkStack
    const dbConfig: DatabaseConfig
    const dbSecurityGroup: SecurityGroup
    var secret: Option<Secret>
    var endpoint: Option<Value>
    var instance: Option<DbInstance>
    var cluster: Option<DbCluster>

    /** The security group `__init__` creates: named by the stack, admitting PostgreSQL from
        the app group only, with no outbound rule. */
    ghost predicate GroupBuilt()
      reads this, base, dbSecurityGroup
    {
      && !dbSecurityGroup.allowAllOutbound
      && dbSecurityGroup.groupName == Some(base.GetResourceName("sg", "database"))
      && dbSecurityGroup.ingress == [IngressRule(GroupPeer(network.n8nSecurityGroup.groupId), Tcp(5432),
                                                 "Allow PostgreSQL access from n8n containers")]
    }

    /** The resources the mode created, once it has run without error: an imported secret
        and nothing else, or a generated secret with the Aurora cluster or the RDS instance
        of the parsed class, either placed in the network stack's subnets behind the
        database group. */
    ghost predicate ModeBuilt(catalog: InstanceCatalog)
      reads this, base, network
    {
      match DatabaseMode(dbConfig)
      case ImportExisting =>
        secret == Some(ImportedSecret(dbConfig.connectionSecretArn)) && endpoint == None
        && instance == None && cluster == None
      case AuroraServerless =>
        secret == Some(GeneratedSecretFor(base.environmentName))
        && cluster == Some(AuroraClusterFor(base, dbConfig, network.subnets, dbSecurityGroup.groupId)) && instance == None
        && endpoint == Some(ClusterEndpoint)
      case RdsInstance =>
        var parsed := ParseInstanceClass(dbConfig.instanceClass, catalog);
        parsed.Success? && secret == Some(GeneratedSecretFor(base.environmentName))
        && instance == Some(RdsInstanceFor(base, dbConfig, parsed.value, network.subnets, dbSecurityGroup.groupId))
        && cluster == None && endpoint == Some(InstanceEndpoint)
    }

    /** `__init__` up to the mode choice: the group admits PostgreSQL from the app group only
        and has no outbound rule; no mode has run yet. */
    constructor (b: N8nBaseStack, network: NetworkStack)
      ensures base == b && this.network == network && dbConfig == b.envConfig.settings.database
      ensures fresh(dbSecurityGroup) && GroupBuilt()
      ensures secret == None && endpoint == None && instance == None && cluster == None
    {
      base := b;
      this.network := network;
      dbConfig := b.envConfig.settings.database;
      var group := new SecurityGroup("DatabaseSecurityGroup", b.GetResourceName("sg", "database"), false);
      dbSecurityGroup := group;
      secret, endpoint, instance, cluster := None, None, None, None;
      new;
      group.AddIngressRule(GroupPeer(network.n8nSecurityGroup.groupId), Tcp(5432),
                           "Allow PostgreSQL access from n8n containers");
    }

    /** `_import_existing_database`: needs the secret ARN; leaves no endpoint. */
    method ImportExistingDatabase() returns (o: Outcome)
      modifies this`secret, this`endpoint
      ensures dbConfig.connectionSecretArn == "" ==>
        o == Fail(MissingField("connection_secret_arn", "use_existing"))
        && secret == old(secret) && endpoint == old(endpoint)
      ensures dbConfig.connectionSecretArn != "" ==>
        o == Pass && secret == Some(ImportedSecret(dbConfig.connectionSecretArn)) && endpoint == None
    {
      if dbConfig.connectionSecretArn == "" {
        return Fail(MissingField("connection_secret_arn", "use_existing"));
      }
      secret := Some(ImportedSecret(dbConfig.connectionSecretArn));
      endpoint := None;
      return Pass;
    }

    /** `_create_aurora_serverless` */
    method CreateAuroraServerless()
      modifies this`secret, this`cluster, this`endpoint
      ensures secret == Some(GeneratedSecretFor(base.environmentName))
      ensures cluster == Some(AuroraClusterFor(base, dbConfig, network.subnets, dbSecurityGroup.groupId))
      ensures endpoint == Some(ClusterEndpoint)
    {
      secret := Some(GeneratedSecretFor(base.environmentName));
      cluster := Some(AuroraClusterFor(base, dbConfig, network.subnets, dbSecurityGroup.groupId));
      endpoint := Some(ClusterEndpoint);
    }

    /** `_create_rds_instance`: the secret is created before the class string is parsed,
        so a parse error leaves the secret set and no instance. */
    method CreateRdsInstance(catalog: InstanceCatalog) returns (o: Outcome)
      modifies this`secret, this`instance, this`endpoint
      ensures secret == Some(GeneratedSecretFor(base.environmentName))
      ensures var parsed := ParseInstanceClass(dbConfig.instanceClass, catalog);
        && (parsed.Failure? ==> o == Fail(parsed.error) && instance == old(instance) && endpoint == old(endpoint))
        && (parsed.Success? ==>
              o == Pass && instance == Some(RdsInstanceFor(base, dbConfig, parsed.value, network.subnets, dbSecurityGroup.groupId))
              && endpoint == Some(InstanceEndpoint))
    {
      secret := Some(GeneratedSecretFor(base.environmentName));
      var parsed := ParseInstanceClass(dbConfig.instanceClass, catalog);
      if parsed.Failure? {
        return Fail(parsed.error);
      }
      instance := Some(RdsInstanceFor(base, dbConfig, parsed.value, network.subnets, dbSecurityGroup.groupId));
      endpoint := Some(InstanceEndpoint);
      return Pass;
    }

    /** `_add_outputs` */
    method AddOutputs()
      modifies base`outputs
      ensures base.outputs == old(base.outputs) + DatabaseOutputs(base.stackName, endpoint, secret, dbSecurityGroup.groupId)
    {
      var b := base;
      ghost var before := b.outputs;
      ghost var expected := DatabaseOutputs(b.stackName, endpoint, secret, dbSecurityGroup.groupId);
      var endpointOutput: seq<Output> := [];
      if endpoint.Some? {
        b.AddOutput("DatabaseEndpoint", endpoint.value, "Database endpoint", None);
        endpointOutput := [MakeOutput(b.stackName, "DatabaseEndpoint", endpoint.value, "Database endpoint", None)];
      }
      var secretOutput: seq<Output> := [];
      if secret.Some? {
        b.AddOutput("DatabaseSecretArn", SecretArn(secret.value), "Database credentials secret ARN", None);
        secretOutput := [MakeOutput(b.stackName, "DatabaseSecretArn", SecretArn(secret.value),
                                    "Database credentials secret ARN", None)];
      }
      b.AddOutput("DatabaseSecurityGroupId", dbSecurityGroup.groupId, "Database security group ID", None);
      assert b.outputs == before + endpointOutput + secretOutput
        + [MakeOutput(b.stackName, "DatabaseSecurityGroupId", dbSecurityGroup.groupId, "Database security group ID", None)];
    }

    /** The mode choice of `__init__` and then `_add_outputs`. Exactly one mode runs; it
        fails only for an import without a secret ARN or an unknown instance class. */
    method Provision(catalog: InstanceCatalog) returns (o: Outcome)
      requires secret == None && endpoint == None && instance == None && cluster == None
      modifies this`secret, this`endpoint, this`instance, this`cluster, base`outputs
      ensures var mode := DatabaseMode(dbConfig);
        && (o.Fail? <==>
              (mode == ImportExisting && dbConfig.connectionSecretArn == "")
              || (mode == RdsInstance && ParseInstanceClass(dbConfig.instanceClass, catalog).Failure?))
        && (mode == ImportExisting && dbConfig.connectionSecretArn == "" ==>
              o == Fail(MissingField("connection_secret_arn", "use_existing")))
        && (mode == RdsInstance && ParseInstanceClass(dbConfig.instanceClass, catalog).Failure? ==>
              o == Fail(ParseInstanceClass(dbConfig.instanceClass, catalog).error))
      ensures o.Pass? ==> ModeBuilt(catalog)
      ensures o.Pass? ==> base.outputs == old(base.outputs) + DatabaseOutputs(base.stackName, endpoint, secret, dbSecurityGroup.groupId)
      ensures o.Fail? ==> base.outputs == old(base.outputs)
    {
      match DatabaseMode(dbConfig) {
        case ImportExisting =>
          o := ImportExistingDatabase();
        case AuroraServerless =>
          CreateAuroraServerless();
          o := Pass;
        case RdsInstance =>
          o := CreateRdsInstance(catalog);
      }
      if o.Pass? {
        AddOutputs();
      }
    }
  }

  /** In import mode the outputs are the secret ARN and the group; in the two creating
      modes the endpoint comes first. */
  lemma OutputNamesByMode(stackName: string, endpoint: Option<Value>, secret: Secret, groupId: Value)
    ensures endpoint.None? ==>
      OutputNames(DatabaseOutputs(stackName, endpoint, Some(secret), groupId)) == ["DatabaseSecretArn", "DatabaseSecurityGroupId"]
    ensures endpoint.Some? ==>
      OutputNames(DatabaseOutputs(stackName, endpoint, Some(secret), groupId))
        == ["DatabaseEndpoint", "DatabaseSecretArn", "DatabaseSecurityGroupId"]
  {
  }

  /** `DatabaseStack(...)`: the environment error, then the mode's own error, else the stack. */
  method NewDatabaseStack(config: N8nConfig, environment: string, constructId: string, kwargs: PropOverrides,
                          network: NetworkStack, catalog: InstanceCatalog)
    returns (r: Result<DatabaseStack>)
    ensures environment !in config.environments ==> r == Failure(EnvironmentNotFound(environment))
    ensures environment in config.environments ==>
      var db := config.environments[environment].settings.database;
      && (r.Failure? <==>
            (DatabaseMode(db) == ImportExisting && db.connectionSecretArn == "")
            || (DatabaseMode(db) == RdsInstance && ParseInstanceClass(db.instanceClass, catalog).Failure?))
      && (DatabaseMode(db) == ImportExisting && db.connectionSecretArn == "" ==>
            r == Failure(MissingField("connection_secret_arn", "use_existing")))
      && (DatabaseMode(db) == RdsInstance && ParseInstanceClass(db.instanceClass, catalog).Failure? ==>
            r == Failure(ParseInstanceClass(db.instanceClass, catalog).error))
    ensures r.Success? ==>
      && fresh(r.value) && fresh(r.value.base) && fresh(r.value.dbSecurityGroup)
      && r.value.base.Resolved(config, environment, constructId, kwargs)
      && r.value.network == network && r.value.dbConfig == r.value.base.envConfig.settings.database
      && r.value.GroupBuilt() && r.value.ModeBuilt(catalog)
      && r.value.base.outputs == DatabaseOutputs(r.value.base.stackName, r.value.endpoint, r.value.secret,
                                                 r.value.dbSecurityGroup.groupId)
  {
    var b := NewBaseStack(config, environment, constructId, kwargs);
    if b.Failure? {
      return Failure(b.error);
    }
    var stack := new DatabaseStack(b.value, network);
    var o := stack.Provision(catalog);
    if o.Fail? {
      return Failure(o.error);
    }
    return Success(stack);
  }
}
