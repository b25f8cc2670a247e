/** `MonitoringStack`: the alarm topic, the alarms on the compute service, the file
    system, the database and the tunnel, the log metric filters behind the n8n-specific
    metrics and their alarms, and the dashboard. */
module Monitoring {
  import opened Common
  import opened Config
  import opened Resources
  import opened BaseStack
  import opened Compute
  import opened Database

  // ----- Alarms and metrics -----

  datatype Statistic = Average | Sum | Maximum

  /** The CloudWatch metric names the stack uses, spelled as in CloudWatch. */
  datatype MetricName =
    | CPUUtilization | MemoryUtilization | RunningTaskCount | BurstCreditBalance | ContainerHealthCheck
    | DatabaseConnections | TunnelHealthy | TunnelConnectionErrors
    | WorkflowExecutionSuccess | WorkflowExecutionFailure | WorkflowExecutionDuration
    | WebhookRequests | WebhookResponseTime | AuthenticationErrors | DatabaseConnectionErrors
    | NodeExecutionTime | WorkflowQueueDepth

  /** A metric by namespace and name. */
  datatype MetricRef = MetricRef(namespace: string, metricName: MetricName, statistic: Statistic)

  datatype Metric =
    | Plain(ref: MetricRef, dimensions: seq<(string, Value)>)
    | InstanceMetric(metricName: MetricName)  // a metric helper of the database instance
    | FailureRate(failures: MetricRef, successes: MetricRef)  // the math expression `FailureRateExpression`

  datatype Comparison = GreaterThan | LessThan

  datatype MissingData = NotBreaching | Breaching

  /** Where an alarm sends its notifications. */
  datatype AlarmAction = SnsAction(topicArn: Value)

  /** The alarms by construct id. */
  datatype AlarmId =
    | CpuAlarm | MemoryAlarm | TaskCountAlarm | EfsBurstCreditAlarm
    | DatabaseCpuAlarm | DatabaseConnectionsAlarm
    | CloudflareTunnelHealthAlarm | CloudflareTunnelErrorAlarm
    | WorkflowFailureRateAlarm | WebhookResponseTimeAlarm | DatabaseErrorRateAlarm

  /** What follows "{stack prefix}-" in each alarm's name. */
  function NameSuffix(id: AlarmId): string
  {
    match id
    case CpuAlarm => "cpu-high"
    case MemoryAlarm => "memory-high"
    case TaskCountAlarm => "task-count-low"
    case EfsBurstCreditAlarm => "efs-burst-credits-low"
    case DatabaseCpuAlarm => "db-cpu-high"
    case DatabaseConnectionsAlarm => "db-connections-high"
    case CloudflareTunnelHealthAlarm => "cloudflare-tunnel-unhealthy"
    case CloudflareTunnelErrorAlarm => "cloudflare-tunnel-errors-high"
    case WorkflowFailureRateAlarm => "workflow-failure-rate-high"
    case WebhookResponseTimeAlarm => "webhook-response-time-high"
    case DatabaseErrorRateAlarm => "database-error-rate-high"
  }

  /** An alarm with the actions added to it; its name is `AlarmName(prefix, id)` for the
      stack prefix. An unset comparison or missing-data treatment leaves the alarm
      library's default. */
  datatype Alarm = Alarm(
    id: AlarmId,
    metric: Metric,
    threshold: nat,
    evaluationPeriods: nat,
    datapointsToAlarm: Option<nat>,
    comparison: Option<Comparison>,
    missingData: Option<MissingData>,
    actions: seq<AlarmAction>)

  /** The alarm name: the stack prefix, "-" and the id's suffix. */
  function AlarmName(prefix: string, id: AlarmId): string
  {
    prefix + "-" + NameSuffix(id)
  }

  /** The log metric filters by construct id. */
  datatype FilterId =
    | CloudflareTunnelHealthMetric | CloudflareTunnelErrorMetric
    | WorkflowSuccessMetric | WorkflowFailureMetric | WorkflowDurationMetric
    | WebhookRequestMetric | WebhookResponseTimeMetric
    | AuthErrorMetric | DatabaseErrorMetric
    | NodeExecutionTimeMetric | QueueDepthMetric

  /** The metric each filter publishes. */
  function FilterMetricName(id: FilterId): MetricName
  {
    match id
    case CloudflareTunnelHealthMetric => TunnelHealthy
    case CloudflareTunnelErrorMetric => TunnelConnectionErrors
    case WorkflowSuccessMetric => WorkflowExecutionSuccess
    case WorkflowFailureMetric => WorkflowExecutionFailure
    case WorkflowDurationMetric => WorkflowExecutionDuration
    case WebhookRequestMetric => WebhookRequests
    case WebhookResponseTimeMetric => WebhookResponseTime
    case AuthErrorMetric => AuthenticationErrors
    case DatabaseErrorMetric => DatabaseConnectionErrors
    case NodeExecutionTimeMetric => NodeExecutionTime
    case QueueDepthMetric => WorkflowQueueDepth
  }

  /** A log metric filter on the n8n log group, with default value 0. */
  datatype MetricFilter = MetricFilter(id: FilterId, metricNamespace: string)

  /** The metric references an alarm watches. */
  function Refs(m: Metric): seq<MetricRef>
  {
    match m
    case Plain(ref, _) => [ref]
    case InstanceMetric(_) => []
    case FailureRate(failures, successes) => [failures, successes]
  }

  /** Some filter publishes this metric. */
  predicate Published(ref: MetricRef, filters: seq<MetricFilter>)
  {
    exists k :: 0 <= k < |filters| && FilterMetricName(filters[k].id) == ref.metricName
                && filters[k].metricNamespace == ref.namespace
  }

  /** CloudWatch reserves namespaces starting with "AWS/" for the services' own metrics. */
  predicate AwsNamespace(namespace: string)
  {
    |namespace| >= 4 && namespace[..4] == "AWS/"
  }

  function AlarmIds(alarms: seq<Alarm>): (ids: seq<AlarmId>)
    ensures |ids| == |alarms|
    ensures forall i :: 0 <= i < |alarms| ==> ids[i] == alarms[i].id
  {
    seq(|alarms|, i requires 0 <= i < |alarms| => alarms[i].id)
  }

  lemma AlarmIdsAppend(a: seq<Alarm>, b: seq<Alarm>)
    ensures AlarmIds(a + b) == AlarmIds(a) + AlarmIds(b)
  {
  }

  /** The dimensions that pick out the n8n service on its cluster. */
  function ServiceDimensions(clusterName: string): seq<(string, Value)>
  {
    [("ServiceName", Attr("N8nService", "ServiceName")), ("ClusterName", Lit(clusterName))]
  }

  function EcsMetric(metricName: MetricName, clusterName: string): Metric
  {
    Plain(MetricRef("AWS/ECS", metricName, Average), ServiceDimensions(clusterName))
  }

  /** `_create_compute_alarms`: CPU above 80 and memory above 85, each on two of three
      periods with missing data not breaching; fewer than one running task over two
      periods, with missing data breaching. */
  function ComputeAlarms(clusterName: string, action: AlarmAction): seq<Alarm>
  {
    [Alarm(CpuAlarm, EcsMetric(CPUUtilization, clusterName), 80, 3, Some(2), Some(GreaterThan),
               Some(NotBreaching), [action]),
     Alarm(MemoryAlarm, EcsMetric(MemoryUtilization, clusterName), 85, 3, Some(2), Some(GreaterThan),
               Some(NotBreaching), [action]),
     Alarm(TaskCountAlarm, EcsMetric(RunningTaskCount, clusterName), 1, 2, None, Some(LessThan),
               Some(Breaching), [action])]
  }

  /** `_create_storage_alarms`: burst credits below one terabyte, one period. */
  function StorageAlarms(storage: Option<StorageHandle>, action: AlarmAction): seq<Alarm>
  {
    if storage.None? then []
    else
      [Alarm(EfsBurstCreditAlarm,
                 Plain(MetricRef("AWS/EFS", BurstCreditBalance, Average), [("FileSystemId", storage.value.fileSystemId)]),
                 1000000000000, 1, None, Some(LessThan), Some(NotBreaching), [action])]
  }

  /** What `hasattr` sees on the database stack passed in. */
  datatype DatabaseKind = NoDatabase | InstanceDatabase | ClusterDatabase | ImportedDatabase

  function KindOf(db: DatabaseStack?): DatabaseKind
    reads db
  {
    if db == null then NoDatabase
    else if db.instance.Some? then InstanceDatabase
    else if db.cluster.Some? then ClusterDatabase
    else ImportedDatabase
  }

  /** `_create_database_alarms`: CPU at 80 on two of three periods and 50 connections over
      two periods, for an RDS instance only. */
  function DatabaseAlarms(kind: DatabaseKind, action: AlarmAction): seq<Alarm>
  {
    if kind != InstanceDatabase then []
    else
      [Alarm(DatabaseCpuAlarm, InstanceMetric(CPUUtilization), 80, 3, Some(2), None, None, [action]),
       Alarm(DatabaseConnectionsAlarm, InstanceMetric(DatabaseConnections), 50, 2, None, None, None, [action])]
  }

  const TunnelNamespace := "Cloudflare/Tunnel"

  /** The metric filters of `_create_cloudflare_tunnel_alarms`. */
  const TunnelFilters := [MetricFilter(CloudflareTunnelHealthMetric, TunnelNamespace),
                          MetricFilter(CloudflareTunnelErrorMetric, TunnelNamespace)]

  /** The alarms of `_create_cloudflare_tunnel_alarms`: the tunnel container's health check
      below one on two of three periods, missing data breaching; more than ten connection
      errors over two periods. */
  function TunnelAlarms(clusterName: string, action: AlarmAction): seq<Alarm>
  {
    [Alarm(CloudflareTunnelHealthAlarm,
               Plain(MetricRef("AWS/ECS", ContainerHealthCheck, Average),
                     ServiceDimensions(clusterName) + [("ContainerName", Lit("cloudflare-tunnel"))]),
               1, 3, Some(2), Some(LessThan), Some(Breaching), [action]),
     Alarm(CloudflareTunnelErrorAlarm, Plain(MetricRef(TunnelNamespace, TunnelConnectionErrors, Sum), []),
               10, 2, None, Some(GreaterThan), Some(NotBreaching), [action])]
  }

  /** `_create_custom_n8n_metrics`: the configured namespace, "N8n/Serverless" without a
      monitoring block. */
  function CustomNamespace(monitoring: Option<MonitoringConfig>): (ns: string)
    ensures monitoring.Some? ==> ns == monitoring.value.customMetricsNamespace
    ensures monitoring.None? ==> ns == "N8n/Serverless"
  {
    if monitoring.Some? then monitoring.value.customMetricsNamespace else "N8n/Serverless"
  }

  /** The filters of `_create_workflow_execution_metrics`: successes, failures, durations. */
  function WorkflowFilters(ns: string): seq<MetricFilter>
  {
    [MetricFilter(WorkflowSuccessMetric, ns), MetricFilter(WorkflowFailureMetric, ns),
     MetricFilter(WorkflowDurationMetric, ns)]
  }

  /** The filters of `_create_webhook_metrics`: requests and response times. */
  function WebhookFilters(ns: string): seq<MetricFilter>
  {
    [MetricFilter(WebhookRequestMetric, ns), MetricFilter(WebhookResponseTimeMetric, ns)]
  }

  /** The filters of `_create_error_metrics`: authentication and database errors. */
  function ErrorFilters(ns: string): seq<MetricFilter>
  {
    [MetricFilter(AuthErrorMetric, ns), MetricFilter(DatabaseErrorMetric, ns)]
  }

  /** The filters of `_create_performance_metrics`: node execution times and queue depth. */
  function PerformanceFilters(ns: string): seq<MetricFilter>
  {
    [MetricFilter(NodeExecutionTimeMetric, ns), MetricFilter(QueueDepthMetric, ns)]
  }

  /** The filters of the four custom metric methods, in call order. */
  function CustomFilters(ns: string): seq<MetricFilter>
  {
    WorkflowFilters(ns) + WebhookFilters(ns) + ErrorFilters(ns) + PerformanceFilters(ns)
  }

  /** The expression a `FailureRate` metric evaluates, "failures" and "successes" naming
      its two metrics. */
  function FailureRateExpression(): string
  {
    "(failures / (successes + failures)) * 100"
  }

  /** `_create_custom_metric_alarms`: a failure rate above ten percent and a webhook
      response time above 1000 ms, each on two of three periods; more than five database
      connection errors over two periods when a database stack is given. */
  function CustomAlarms(ns: string, hasDatabase: bool, action: AlarmAction): seq<Alarm>
  {
    [Alarm(WorkflowFailureRateAlarm,
               FailureRate(MetricRef(ns, WorkflowExecutionFailure, Sum), MetricRef(ns, WorkflowExecutionSuccess, Sum)),
               10, 3, Some(2), Some(GreaterThan), Some(NotBreaching), [action]),
     Alarm(WebhookResponseTimeAlarm, Plain(MetricRef(ns, WebhookResponseTime, Average), []),
               1000, 3, Some(2), Some(GreaterThan), Some(NotBreaching), [action])]
    + (if hasDatabase
       then [Alarm(DatabaseErrorRateAlarm, Plain(MetricRef(ns, DatabaseConnectionErrors, Sum), []),
                       5, 2, None, Some(GreaterThan), Some(NotBreaching), [action])]
       else [])
  }

  /** Whether `__init__` creates the tunnel alarms and widgets. */
  predicate TunnelMonitored(settings: Settings)
  {
    settings.access.Some? && settings.access.value.accessType == Cloudflare
  }

  /** Every alarm of `__init__`, in creation order. */
  function ExpectedAlarms(clusterName: string, storage: Option<StorageHandle>, kind: DatabaseKind,
                          tunnel: bool, ns: string, action: AlarmAction): seq<Alarm>
  {
    ComputeAlarms(clusterName, action) + StorageAlarms(storage, action)
    + DatabaseAlarms(kind, action) + (if tunnel then TunnelAlarms(clusterName, action) else [])
    + CustomAlarms(ns, kind != NoDatabase, action)
  }

  /** Every metric filter of `__init__`, in creation order. */
  function ExpectedFilters(tunnel: bool, ns: string): seq<MetricFilter>
  {
    (if tunnel then TunnelFilters else []) + CustomFilters(ns)
  }

  /** The construct ids of the alarms, in creation order: the compute three always; the
      burst-credit alarm with a storage stack; the two instance alarms for an RDS instance;
      the two tunnel alarms in Cloudflare mode; the failure-rate and webhook alarms always;
      the database error-rate alarm with any database stack. */
  function InventoryIds(withStorage: bool, rdsInstance: bool, tunnel: bool, withDatabase: bool): seq<AlarmId>
  {
    [CpuAlarm, MemoryAlarm, TaskCountAlarm]
    + (if withStorage then [EfsBurstCreditAlarm] else [])
    + (if rdsInstance then [DatabaseCpuAlarm, DatabaseConnectionsAlarm] else [])
    + (if tunnel then [CloudflareTunnelHealthAlarm, CloudflareTunnelErrorAlarm] else [])
    + [WorkflowFailureRateAlarm, WebhookResponseTimeAlarm]
    + (if withDatabase then [DatabaseErrorRateAlarm] else [])
  }

  /** The alarms by construct id: the compute three always; the burst-credit alarm exactly
      with a storage stack; the two instance alarms exactly for an RDS instance (none for
      an Aurora cluster or an imported database); the two tunnel alarms exactly in
      Cloudflare mode; the failure-rate and webhook alarms always; the database error-rate
      alarm exactly when a database stack is given. */
  lemma {:induction false} AlarmInventory(clusterName: string, storage: Option<StorageHandle>,
                                          kind: DatabaseKind, tunnel: bool, ns: string, action: AlarmAction)
    ensures AlarmIds(ExpectedAlarms(clusterName, storage, kind, tunnel, ns, action))
      == InventoryIds(storage.Some?, kind == InstanceDatabase, tunnel, kind != NoDatabase)
  {
    var c, s, d := ComputeAlarms(clusterName, action), StorageAlarms(storage, action),
                   DatabaseAlarms(kind, action);
    var t := if tunnel then TunnelAlarms(clusterName, action) else [];
    var u := CustomAlarms(ns, kind != NoDatabase, action);
    AlarmIdsAppend(c, s);
    AlarmIdsAppend(c + s, d);
    AlarmIdsAppend(c + s + d, t);
    AlarmIdsAppend(c + s + d + t, u);
    assert AlarmIds(c) == [CpuAlarm, MemoryAlarm, TaskCountAlarm];
    assert AlarmIds(s) == if storage.Some? then [EfsBurstCreditAlarm] else [];
    assert AlarmIds(d) == if kind == InstanceDatabase then [DatabaseCpuAlarm, DatabaseConnectionsAlarm] else [];
    assert AlarmIds(t) == if tunnel then [CloudflareTunnelHealthAlarm, CloudflareTunnelErrorAlarm] else [];
    assert AlarmIds(u) == [WorkflowFailureRateAlarm, WebhookResponseTimeAlarm]
                          + (if kind != NoDatabase then [DatabaseErrorRateAlarm] else []);
  }

  /** Each alarm's place in the order in which `__init__` can create them. */
  function Rank(id: AlarmId): nat
  {
    match id
    case CpuAlarm => 0
    case MemoryAlarm => 1
    case TaskCountAlarm => 2
    case EfsBurstCreditAlarm => 3
    case DatabaseCpuAlarm => 4
    case DatabaseConnectionsAlarm => 5
    case CloudflareTunnelHealthAlarm => 6
    case CloudflareTunnelErrorAlarm => 7
    case WorkflowFailureRateAlarm => 8
    case WebhookResponseTimeAlarm => 9
    case DatabaseErrorRateAlarm => 10
  }

  /** The ranks lie in [lo, hi) and strictly increase along the list. */
  predicate RankedBetween(ids: seq<AlarmId>, lo: nat, hi: nat)
  {
    (forall i :: 0 <= i < |ids| ==> lo <= Rank(ids[i]) < hi)
    && (forall i, j :: 0 <= i < j < |ids| ==> Rank(ids[i]) < Rank(ids[j]))
  }

  lemma RankedAppend(a: seq<AlarmId>, b: seq<AlarmId>, lo: nat, mid: nat, hi: nat)
    requires lo <= mid <= hi
    requires RankedBetween(a, lo, mid) && RankedBetween(b, mid, hi)
    ensures RankedBetween(a + b, lo, hi)
  {
    forall i | 0 <= i < |a + b| ensures lo <= Rank((a + b)[i]) < hi {
      if i >= |a| {
        assert (a + b)[i] == b[i - |a|];
      }
    }
    forall i, j | 0 <= i < j < |a + b| ensures Rank((a + b)[i]) < Rank((a + b)[j]) {
      if j < |a| {
        assert (a + b)[i] == a[i] && (a + b)[j] == a[j];
      } else if i < |a| {
        assert (a + b)[i] == a[i] && (a + b)[j] == b[j - |a|];
        assert Rank(a[i]) < mid <= Rank(b[j - |a|]);
      } else {
        assert (a + b)[i] == b[i - |a|] && (a + b)[j] == b[j - |a|];
      }
    }
  }

  /** Different alarms have different name suffixes. */
  lemma NameSuffixInjective(a: AlarmId, b: AlarmId)
    requires a != b
    ensures NameSuffix(a) != NameSuffix(b)
  {
  }

  /** Under one prefix, different alarms get different names. */
  lemma AlarmNameInjective(prefix: string, a: AlarmId, b: AlarmId)
    requires a != b
    ensures AlarmName(prefix, a) != AlarmName(prefix, b)
  {
    NameSuffixInjective(a, b);
    assert AlarmName(prefix, a)[|prefix| + 1..] == NameSuffix(a);
    assert AlarmName(prefix, b)[|prefix| + 1..] == NameSuffix(b);
  }

  lemma RankedEmpty(lo: nat, hi: nat)
    ensures RankedBetween([], lo, hi)
  {
  }

  lemma RankedSingle(x: AlarmId, lo: nat, hi: nat)
    requires lo <= Rank(x) < hi
    ensures RankedBetween([x], lo, hi)
  {
  }

  lemma RankedPair(x: AlarmId, y: AlarmId, lo: nat, hi: nat)
    requires lo <= Rank(x) < Rank(y) < hi
    ensures RankedBetween([x, y], lo, hi)
  {
  }

  lemma RankedTriple(x: AlarmId, y: AlarmId, z: AlarmId, lo: nat, hi: nat)
    requires lo <= Rank(x) < Rank(y) < Rank(z) < hi
    ensures RankedBetween([x, y, z], lo, hi)
  {
  }

  /** The inventory comes in strictly increasing rank. */
  lemma {:induction false} InventoryRanked(withStorage: bool, rdsInstance: bool, tunnel: bool, withDatabase: bool)
    ensures RankedBetween(InventoryIds(withStorage, rdsInstance, tunnel, withDatabase), 0, 11)
  {
    var c: seq<AlarmId> := [CpuAlarm, MemoryAlarm, TaskCountAlarm];
    var s: seq<AlarmId> := if withStorage then [EfsBurstCreditAlarm] else [];
    var d: seq<AlarmId> := if rdsInstance then [DatabaseCpuAlarm, DatabaseConnectionsAlarm] else [];
    var t: seq<AlarmId> := if tunnel then [CloudflareTunnelHealthAlarm, CloudflareTunnelErrorAlarm] else [];
    var w: seq<AlarmId> := [WorkflowFailureRateAlarm, WebhookResponseTimeAlarm];
    var e: seq<AlarmId> := if withDatabase then [DatabaseErrorRateAlarm] else [];
    RankedTriple(CpuAlarm, MemoryAlarm, TaskCountAlarm, 0, 3);
    RankedPair(WorkflowFailureRateAlarm, WebhookResponseTimeAlarm, 8, 10);
    if withStorage { RankedSingle(EfsBurstCreditAlarm, 3, 4); } else { RankedEmpty(3, 4); }
    if rdsInstance { RankedPair(DatabaseCpuAlarm, DatabaseConnectionsAlarm, 4, 6); } else { RankedEmpty(4, 6); }
    if tunnel { RankedPair(CloudflareTunnelHealthAlarm, CloudflareTunnelErrorAlarm, 6, 8); } else { RankedEmpty(6, 8); }
    if withDatabase { RankedSingle(DatabaseErrorRateAlarm, 10, 11); } else { RankedEmpty(10, 11); }
    RankedParts(c, s, d, t, w, e);
  }

  lemma RankedParts(c: seq<AlarmId>, s: seq<AlarmId>, d: seq<AlarmId>, t: seq<AlarmId>, w: seq<AlarmId>,
                    e: seq<AlarmId>)
    requires RankedBetween(c, 0, 3) && RankedBetween(s, 3, 4) && RankedBetween(d, 4, 6)
    requires RankedBetween(t, 6, 8) && RankedBetween(w, 8, 10) && RankedBetween(e, 10, 11)
    ensures RankedBetween(c + s + d + t + w + e, 0, 11)
  {
    RankedAppend(c, s, 0, 3, 4);
    RankedAppend(c + s, d, 0, 4, 6);
    RankedAppend(c + s + d, t, 0, 6, 8);
    RankedAppend(c + s + d + t, w, 0, 8, 10);
    RankedAppend(c + s + d + t + w, e, 0, 10, 11);
  }

  /** No two alarms share a construct id or a name: the stack never declares a construct
      twice, and the alarm names are unique under any prefix. */
  lemma AlarmsDistinct(prefix: string, clusterName: string, storage: Option<StorageHandle>, kind: DatabaseKind,
                       tunnel: bool, ns: string, action: AlarmAction)
    ensures var alarms := ExpectedAlarms(clusterName, storage, kind, tunnel, ns, action);
      forall i, j :: 0 <= i < j < |alarms| ==>
        alarms[i].id != alarms[j].id && AlarmName(prefix, alarms[i].id) != AlarmName(prefix, alarms[j].id)
  {
    var alarms := ExpectedAlarms(clusterName, storage, kind, tunnel, ns, action);
    AlarmInventory(clusterName, storage, kind, tunnel, ns, action);
    InventoryRanked(storage.Some?, kind == InstanceDatabase, tunnel, kind != NoDatabase);
    var ids := AlarmIds(alarms);
    forall i, j | 0 <= i < j < |alarms|
      ensures alarms[i].id != alarms[j].id && AlarmName(prefix, alarms[i].id) != AlarmName(prefix, alarms[j].id)
    {
      assert Rank(ids[i]) < Rank(ids[j]);
      AlarmNameInjective(prefix, alarms[i].id, alarms[j].id);
    }
  }

  /** The alarms a built monitoring stack holds are named "{stack prefix}-{suffix}", and no
      two of them share a name. */
  lemma StackAlarmNamesDistinct(m: MonitoringStack)
    requires m.Built()
    ensures forall i, j :: 0 <= i < j < |m.alarms| ==>
      AlarmName(m.Prefix(), m.alarms[i].id) != AlarmName(m.Prefix(), m.alarms[j].id)
  {
    AlarmsDistinct(m.Prefix(), m.ClusterName(), m.storage, m.databaseKind, m.Tunnel(),
                   CustomNamespace(m.monitoringConfig), m.TopicAction());
  }

  predicate NotifyOnly(alarms: seq<Alarm>, action: AlarmAction)
  {
    forall i :: 0 <= i < |alarms| ==> alarms[i].actions == [action]
  }

  lemma NotifyAppend(a: seq<Alarm>, b: seq<Alarm>, action: AlarmAction)
    requires NotifyOnly(a, action) && NotifyOnly(b, action)
    ensures NotifyOnly(a + b, action)
  {
    forall i | |a| <= i < |a + b| ensures (a + b)[i].actions == [action] {
      assert (a + b)[i] == b[i - |a|];
    }
  }

  /** Every alarm notifies exactly one action: the given one. */
  lemma {:induction false} AlarmsNotifyOnce(clusterName: string, storage: Option<StorageHandle>,
                                            kind: DatabaseKind, tunnel: bool, ns: string, action: AlarmAction)
    ensures NotifyOnly(ExpectedAlarms(clusterName, storage, kind, tunnel, ns, action), action)
  {
    var c, s, d := ComputeAlarms(clusterName, action), StorageAlarms(storage, action),
                   DatabaseAlarms(kind, action);
    var t := if tunnel then TunnelAlarms(clusterName, action) else [];
    var u := CustomAlarms(ns, kind != NoDatabase, action);
    NotifyAppend(c, s, action);
    NotifyAppend(c + s, d, action);
    NotifyAppend(c + s + d, t, action);
    NotifyAppend(c + s + d + t, u, action);
  }

  predicate LivenessBreaches(alarms: seq<Alarm>)
  {
    forall i :: 0 <= i < |alarms| ==>
      (alarms[i].missingData == Some(Breaching) <==> alarms[i].comparison == Some(LessThan) && alarms[i].threshold == 1)
  }

  lemma LivenessAppend(a: seq<Alarm>, b: seq<Alarm>)
    requires LivenessBreaches(a) && LivenessBreaches(b)
    ensures LivenessBreaches(a + b)
  {
    forall i | |a| <= i < |a + b|
      ensures ((a + b)[i].missingData == Some(Breaching)
               <==> (a + b)[i].comparison == Some(LessThan) && (a + b)[i].threshold == 1)
    {
      assert (a + b)[i] == b[i - |a|];
    }
  }

  /** Only the "fewer than one" liveness alarms (running tasks, tunnel health) treat
      missing data as breaching. */
  lemma {:induction false} MissingDataBreachesOnlyLiveness(clusterName: string,
                                                          storage: Option<StorageHandle>, kind: DatabaseKind,
                                                          tunnel: bool, ns: string, action: AlarmAction)
    ensures LivenessBreaches(ExpectedAlarms(clusterName, storage, kind, tunnel, ns, action))
  {
    var c, s, d := ComputeAlarms(clusterName, action), StorageAlarms(storage, action),
                   DatabaseAlarms(kind, action);
    var t := if tunnel then TunnelAlarms(clusterName, action) else [];
    var u := CustomAlarms(ns, kind != NoDatabase, action);
    LivenessAppend(c, s);
    LivenessAppend(c + s, d);
    LivenessAppend(c + s + d, t);
    LivenessAppend(c + s + d + t, u);
  }

  /** Every metric the alarm watches outside the "AWS/" namespaces comes from a filter. */
  predicate AlarmPublished(alarm: Alarm, filters: seq<MetricFilter>)
  {
    forall r :: 0 <= r < |Refs(alarm.metric)| && !AwsNamespace(Refs(alarm.metric)[r].namespace)
      ==> Published(Refs(alarm.metric)[r], filters)
  }

  predicate WatchesPublished(alarms: seq<Alarm>, filters: seq<MetricFilter>)
  {
    forall i :: 0 <= i < |alarms| ==> AlarmPublished(alarms[i], filters)
  }

  lemma PublishedAppend(a: seq<Alarm>, b: seq<Alarm>, filters: seq<MetricFilter>)
    requires WatchesPublished(a, filters) && WatchesPublished(b, filters)
    ensures WatchesPublished(a + b, filters)
  {
    forall i | 0 <= i < |a + b| ensures AlarmPublished((a + b)[i], filters) {
      if i >= |a| {
        assert (a + b)[i] == b[i - |a|];
      }
    }
  }

  /** Every metric the alarms watch outside the "AWS/" namespaces is published by one of
      the stack's own metric filters, whatever the custom namespace is. */
  lemma {:induction false} AlarmedLogMetricsArePublished(clusterName: string,
                                                        storage: Option<StorageHandle>, kind: DatabaseKind,
                                                        tunnel: bool, ns: string, action: AlarmAction)
    ensures WatchesPublished(ExpectedAlarms(clusterName, storage, kind, tunnel, ns, action),
                             ExpectedFilters(tunnel, ns))
  {
    var filters := ExpectedFilters(tunnel, ns);
    var c, s, d := ComputeAlarms(clusterName, action), StorageAlarms(storage, action),
                   DatabaseAlarms(kind, action);
    var t := if tunnel then TunnelAlarms(clusterName, action) else [];
    var u := CustomAlarms(ns, kind != NoDatabase, action);
    AwsAlarmsNeedNoFilter(c, filters, "AWS/ECS");
    if storage.Some? {
      AwsAlarmsNeedNoFilter(s, filters, "AWS/EFS");
    }
    assert WatchesPublished(d, filters);
    if tunnel {
      TunnelAlarmsPublished(clusterName, ns, action);
    }
    CustomAlarmsPublished(ns, kind != NoDatabase, tunnel, action);
    PublishedAppend(c, s, filters);
    PublishedAppend(c + s, d, filters);
    PublishedAppend(c + s + d, t, filters);
    PublishedAppend(c + s + d + t, u, filters);
  }

  /** Alarms that watch one metric each in an "AWS/" namespace need no filter. */
  lemma AwsAlarmsNeedNoFilter(alarms: seq<Alarm>, filters: seq<MetricFilter>, namespace: string)
    requires AwsNamespace(namespace)
    requires forall i :: 0 <= i < |alarms| ==> alarms[i].metric.Plain? && alarms[i].metric.ref.namespace == namespace
    ensures WatchesPublished(alarms, filters)
  {
  }

  lemma TunnelAlarmsPublished(clusterName: string, ns: string, action: AlarmAction)
    ensures WatchesPublished(TunnelAlarms(clusterName, action), ExpectedFilters(true, ns))
  {
    var filters := ExpectedFilters(true, ns);
    var t := TunnelAlarms(clusterName, action);
    assert AwsNamespace(Refs(t[0].metric)[0].namespace);
    assert AlarmPublished(t[0], filters);
    assert filters[1] == TunnelFilters[1];
    assert Published(Refs(t[1].metric)[0], filters);
    assert AlarmPublished(t[1], filters);
  }

  lemma PublishedAt(ref: MetricRef, filters: seq<MetricFilter>, k: nat)
    requires k < |filters| && FilterMetricName(filters[k].id) == ref.metricName
    requires filters[k].metricNamespace == ref.namespace
    ensures Published(ref, filters)
  {
  }

  lemma PublishedLeft(ref: MetricRef, a: seq<MetricFilter>, b: seq<MetricFilter>)
    requires Published(ref, a)
    ensures Published(ref, a + b)
  {
    var k :| 0 <= k < |a| && FilterMetricName(a[k].id) == ref.metricName && a[k].metricNamespace == ref.namespace;
    assert (a + b)[k] == a[k];
  }

  lemma PublishedRight(ref: MetricRef, a: seq<MetricFilter>, b: seq<MetricFilter>)
    requires Published(ref, b)
    ensures Published(ref, a + b)
  {
    var k :| 0 <= k < |b| && FilterMetricName(b[k].id) == ref.metricName && b[k].metricNamespace == ref.namespace;
    assert (a + b)[|a| + k] == b[k];
  }

  /** A metric that one of the four custom methods publishes is published by the stack. */
  lemma PublishedByCustom(ref: MetricRef, tunnel: bool, ns: string)
    requires Published(ref, WorkflowFilters(ns)) || Published(ref, WebhookFilters(ns))
             || Published(ref, ErrorFilters(ns)) || Published(ref, PerformanceFilters(ns))
    ensures Published(ref, ExpectedFilters(tunnel, ns))
  {
    var w, h, e, p := WorkflowFilters(ns), WebhookFilters(ns), ErrorFilters(ns), PerformanceFilters(ns);
    if Published(ref, w) {
      PublishedLeft(ref, w, h);
    } else if Published(ref, h) {
      PublishedRight(ref, w, h);
    }
    if Published(ref, w + h) {
      PublishedLeft(ref, w + h, e);
    } else if Published(ref, e) {
      PublishedRight(ref, w + h, e);
    }
    if Published(ref, w + h + e) {
      PublishedLeft(ref, w + h + e, p);
    } else {
      PublishedRight(ref, w + h + e, p);
    }
    PublishedRight(ref, if tunnel then TunnelFilters else [], w + h + e + p);
  }

  /** An alarm on metrics every one of which is published. */
  lemma RefsPublished(alarm: Alarm, refs: seq<MetricRef>, filters: seq<MetricFilter>)
    requires Refs(alarm.metric) == refs
    requires forall r :: 0 <= r < |refs| ==> Published(refs[r], filters)
    ensures AlarmPublished(alarm, filters)
  {
  }

  /** The custom alarms need exactly their four metrics published. */
  lemma CustomAlarmsWatch(ns: string, hasDatabase: bool, action: AlarmAction, filters: seq<MetricFilter>)
    requires Published(MetricRef(ns, WorkflowExecutionFailure, Sum), filters)
    requires Published(MetricRef(ns, WorkflowExecutionSuccess, Sum), filters)
    requires Published(MetricRef(ns, WebhookResponseTime, Average), filters)
    requires Published(MetricRef(ns, DatabaseConnectionErrors, Sum), filters)
    ensures WatchesPublished(CustomAlarms(ns, hasDatabase, action), filters)
  {
    var u := CustomAlarms(ns, hasDatabase, action);
    RefsPublished(u[0], [MetricRef(ns, WorkflowExecutionFailure, Sum), MetricRef(ns, WorkflowExecutionSuccess, Sum)],
                  filters);
    RefsPublished(u[1], [MetricRef(ns, WebhookResponseTime, Average)], filters);
    if hasDatabase {
      RefsPublished(u[2], [MetricRef(ns, DatabaseConnectionErrors, Sum)], filters);
    }
  }

  /** The four metrics the custom alarms watch, each published by its method's filters. */
  lemma CustomMetricsInParts(ns: string)
    ensures Published(MetricRef(ns, WorkflowExecutionFailure, Sum), WorkflowFilters(ns))
    ensures Published(MetricRef(ns, WorkflowExecutionSuccess, Sum), WorkflowFilters(ns))
    ensures Published(MetricRef(ns, WebhookResponseTime, Average), WebhookFilters(ns))
    ensures Published(MetricRef(ns, DatabaseConnectionErrors, Sum), ErrorFilters(ns))
  {
    PublishedAt(MetricRef(ns, WorkflowExecutionFailure, Sum), WorkflowFilters(ns), 1);
    PublishedAt(MetricRef(ns, WorkflowExecutionSuccess, Sum), WorkflowFilters(ns), 0);
    PublishedAt(MetricRef(ns, WebhookResponseTime, Average), WebhookFilters(ns), 1);
    PublishedAt(MetricRef(ns, DatabaseConnectionErrors, Sum), ErrorFilters(ns), 1);
  }

  lemma CustomAlarmsPublished(ns: string, hasDatabase: bool, tunnel: bool, action: AlarmAction)
    ensures WatchesPublished(CustomAlarms(ns, hasDatabase, action), ExpectedFilters(tunnel, ns))
  {
    CustomMetricsInParts(ns);
    PublishedByCustom(MetricRef(ns, WorkflowExecutionFailure, Sum), tunnel, ns);
    PublishedByCustom(MetricRef(ns, WorkflowExecutionSuccess, Sum), tunnel, ns);
    PublishedByCustom(MetricRef(ns, WebhookResponseTime, Average), tunnel, ns);
    PublishedByCustom(MetricRef(ns, DatabaseConnectionErrors, Sum), tunnel, ns);
    CustomAlarmsWatch(ns, hasDatabase, action, ExpectedFilters(tunnel, ns));
  }

  // ----- Topic and dashboard -----

  datatype Subscription = EmailSubscription(address: string)

  /** The SNS topic alarms notify. */
  class Topic {
    const topicName: string
    const displayName: string
    const topicArn: Value := Attr("AlarmTopic", "TopicArn")
    var subscriptions: seq<Subscription>

    constructor (topicName: string, displayName: string)
      ensures this.topicName == topicName && this.displayName == displayName
      ensures subscriptions == []
    {
      this.topicName := topicName;
      this.displayName := displayName;
      subscriptions := [];
    }

    /** `add_subscription` */
    method AddSubscription(s: Subscription)
      modifies this`subscriptions
      ensures subscriptions == old(subscriptions) + [s]
    {
      subscriptions := subscriptions + [s];
    }
  }

  function AlarmSubscriptions(monitoring: Option<MonitoringConfig>): seq<Subscription>
  {
    if monitoring.Some? && monitoring.value.alarmEmail != "" then [EmailSubscription(monitoring.value.alarmEmail)] else []
  }

  /** `_create_alarm_topic`: an email subscription exactly when a monitoring block with a
      non-empty alarm email exists. */
  method CreateAlarmTopic(b: N8nBaseStack, monitoring: Option<MonitoringConfig>) returns (topic: Topic)
    ensures fresh(topic)
    ensures topic.topicName == b.GetResourceName("alarms", "")
    ensures topic.displayName == "n8n " + b.environmentName + " Alarms"
    ensures topic.subscriptions == AlarmSubscriptions(monitoring)
  {
    topic := new Topic(b.GetResourceName("alarms", ""), "n8n " + b.environmentName + " Alarms");
    if monitoring.Some? && monitoring.value.alarmEmail != "" {
      topic.AddSubscription(EmailSubscription(monitoring.value.alarmEmail));
    }
  }

  /** At most one subscription, and one exactly when an alarm email is configured, to
      that address. */
  lemma SubscriptionIffEmail(monitoring: Option<MonitoringConfig>)
    ensures |AlarmSubscriptions(monitoring)| <= 1
    ensures |AlarmSubscriptions(monitoring)| == 1 <==> monitoring.Some? && monitoring.value.alarmEmail != ""
    ensures |AlarmSubscriptions(monitoring)| == 1 ==> AlarmSubscriptions(monitoring)[0].address == monitoring.value.alarmEmail
  {
  }

  /** The dashboard widgets; the metrics, labels and queries inside them are not modelled. */
  datatype Widget =
    | ServiceMetrics | TaskCount | RecentErrors | EfsMetrics | TunnelHealth | TunnelLogs
    | WorkflowExecutions | WebhookPerformance | PerformanceMetrics
    | AuthenticationErrors24h | DatabaseErrors24h | WorkflowSuccessRate24h | TotalWorkflows24h

  /** Width in the dashboard's 24-column grid. */
  function Width(w: Widget): nat
  {
    match w
    case RecentErrors | PerformanceMetrics => 24
    case AuthenticationErrors24h | DatabaseErrors24h | WorkflowSuccessRate24h | TotalWorkflows24h => 6
    case _ => 12
  }

  /** A dashboard: each `add_widgets` call lays its widgets out left to right as one row. */
  class Dashboard {
    const dashboardName: string
    var rows: seq<seq<Widget>>

    constructor (dashboardName: string)
      ensures this.dashboardName == dashboardName && rows == []
    {
      this.dashboardName := dashboardName;
      rows := [];
    }

    /** `add_widgets` */
    method AddWidgets(widgets: seq<Widget>)
      modifies this`rows
      ensures rows == old(rows) + [widgets]
    {
      rows := rows + [widgets];
    }
  }

  /** The rows `_create_dashboard` adds: service and task graphs, recent errors, EFS
      metrics with a storage stack, tunnel health and logs in Cloudflare mode. */
  function BaseRows(withStorage: bool, tunnel: bool): seq<seq<Widget>>
  {
    [[ServiceMetrics, TaskCount], [RecentErrors]]
    + (if withStorage then [[EfsMetrics]] else [])
    + (if tunnel then [[TunnelHealth, TunnelLogs]] else [])
  }

  /** The rows `_add_custom_metrics_to_dashboard` adds. */
  const CustomRows: seq<seq<Widget>> := [
    [WorkflowExecutions, WebhookPerformance],
    [PerformanceMetrics],
    [AuthenticationErrors24h, DatabaseErrors24h, WorkflowSuccessRate24h, TotalWorkflows24h]
  ]

  function ExpectedRows(withStorage: bool, tunnel: bool): seq<seq<Widget>>
  {
    BaseRows(withStorage, tunnel) + CustomRows
  }

  function RowWidth(row: seq<Widget>): nat
  {
    if |row| == 0 then 0 else Width(row[0]) + RowWidth(row[1..])
  }

  /** The widgets in layout order, row by row. */
  function Flatten(rows: seq<seq<Widget>>): seq<Widget>
  {
    if |rows| == 0 then [] else rows[0] + Flatten(rows[1..])
  }

  lemma {:induction false} FlattenAppend(a: seq<seq<Widget>>, b: seq<seq<Widget>>)
    ensures Flatten(a + b) == Flatten(a) + Flatten(b)
  {
    if |a| == 0 {
      assert a + b == b;
    } else {
      assert (a + b)[0] == a[0];
      assert (a + b)[1..] == a[1..] + b;
      FlattenAppend(a[1..], b);
    }
  }

  /** Every row fits the 24-column grid, and every row but the lone EFS graph fills it. */
  predicate FitsGrid(rows: seq<seq<Widget>>)
  {
    forall r :: 0 <= r < |rows| ==> RowWidth(rows[r]) <= 24 && (rows[r] != [EfsMetrics] ==> RowWidth(rows[r]) == 24)
  }

  lemma FitsGridAppend(a: seq<seq<Widget>>, b: seq<seq<Widget>>)
    requires FitsGrid(a) && FitsGrid(b)
    ensures FitsGrid(a + b)
  {
    forall r | |a| <= r < |a + b|
      ensures RowWidth((a + b)[r]) <= 24 && ((a + b)[r] != [EfsMetrics] ==> RowWidth((a + b)[r]) == 24)
    {
      assert (a + b)[r] == b[r - |a|];
    }
  }

  lemma HeadRowsFit()
    ensures FitsGrid([[ServiceMetrics, TaskCount], [RecentErrors]])
  {
    assert RowWidth([TaskCount]) == 12;
  }

  lemma CustomRowsFit()
    ensures FitsGrid(CustomRows)
  {
    assert RowWidth([WebhookPerformance]) == 12;
    var singles := [AuthenticationErrors24h, DatabaseErrors24h, WorkflowSuccessRate24h, TotalWorkflows24h];
    assert RowWidth(singles[3..]) == 6;
    assert RowWidth(singles[2..]) == 12;
    assert RowWidth(singles[1..]) == 18;
  }

  /** Every row fits the dashboard's 24-column grid, and every row but the EFS graph fills it. */
  lemma {:induction false} RowsFitGrid(withStorage: bool, tunnel: bool)
    ensures FitsGrid(ExpectedRows(withStorage, tunnel))
  {
    var head: seq<seq<Widget>> := [[ServiceMetrics, TaskCount], [RecentErrors]];
    var efs: seq<seq<Widget>> := if withStorage then [[EfsMetrics]] else [];
    var cf: seq<seq<Widget>> := if tunnel then [[TunnelHealth, TunnelLogs]] else [];
    HeadRowsFit();
    CustomRowsFit();
    assert RowWidth([TunnelLogs]) == 12;
    assert FitsGrid(efs) && FitsGrid(cf);
    FitsGridAppend(head, efs);
    FitsGridAppend(head + efs, cf);
    FitsGridAppend(head + efs + cf, CustomRows);
  }

  /** The widgets in order: the EFS graph exactly with a storage stack, the tunnel widgets
      exactly in Cloudflare mode, the custom widgets last. */
  lemma WidgetOrder(withStorage: bool, tunnel: bool)
    ensures Flatten(ExpectedRows(withStorage, tunnel))
      == [ServiceMetrics, TaskCount, RecentErrors]
         + (if withStorage then [EfsMetrics] else [])
         + (if tunnel then [TunnelHealth, TunnelLogs] else [])
         + [WorkflowExecutions, WebhookPerformance, PerformanceMetrics,
            AuthenticationErrors24h, DatabaseErrors24h, WorkflowSuccessRate24h, TotalWorkflows24h]
  {
    var head: seq<seq<Widget>> := [[ServiceMetrics, TaskCount], [RecentErrors]];
    var efs: seq<seq<Widget>> := if withStorage then [[EfsMetrics]] else [];
    var cf: seq<seq<Widget>> := if tunnel then [[TunnelHealth, TunnelLogs]] else [];
    FlattenParts(head, efs, cf, CustomRows);
    FlattenTwo([ServiceMetrics, TaskCount], [RecentErrors]);
    if withStorage { FlattenOne([EfsMetrics]); }
    if tunnel { FlattenOne([TunnelHealth, TunnelLogs]); }
    FlattenThree(CustomRows[0], CustomRows[1], CustomRows[2]);
    assert [ServiceMetrics, TaskCount] + [RecentErrors] == [ServiceMetrics, TaskCount, RecentErrors];
    assert CustomRows[0] + CustomRows[1] + CustomRows[2]
        == [WorkflowExecutions, WebhookPerformance, PerformanceMetrics,
            AuthenticationErrors24h, DatabaseErrors24h, WorkflowSuccessRate24h, TotalWorkflows24h];
  }

  lemma FlattenOne(r: seq<Widget>)
    ensures Flatten([r]) == r
  {
    assert [r][1..] == [];
  }

  lemma FlattenTwo(r1: seq<Widget>, r2: seq<Widget>)
    ensures Flatten([r1, r2]) == r1 + r2
  {
    assert [r1, r2][1..] == [r2];
    FlattenOne(r2);
  }

  lemma FlattenThree(r1: seq<Widget>, r2: seq<Widget>, r3: seq<Widget>)
    ensures Flatten([r1, r2, r3]) == r1 + r2 + r3
  {
    assert [r1, r2, r3][1..] == [r2, r3];
    FlattenTwo(r2, r3);
  }

  lemma FlattenParts(a: seq<seq<Widget>>, b: seq<seq<Widget>>, c: seq<seq<Widget>>, d: seq<seq<Widget>>)
    ensures Flatten(a + b + c + d) == Flatten(a) + Flatten(b) + Flatten(c) + Flatten(d)
  {
    FlattenAppend(a + b + c, d);
    FlattenAppend(a + b, c);
    FlattenAppend(a, b);
  }

  // ----- Outputs -----

  function DashboardUrl(region: string, dashboardName: string): string
  {
    "https://" + region + ".console.aws.amazon.com/cloudwatch/home?region=" + region + "#dashboards:name=" + dashboardName
  }

  function MonitoringOutputs(stackName: string, region: string, dashboardName: string): seq<Output>
  {
    [MakeOutput(stackName, "AlarmTopicArn", Attr("AlarmTopic", "TopicArn"), "SNS topic for alarms", None),
     MakeOutput(stackName, "DashboardUrl", Lit(DashboardUrl(region, dashboardName)), "CloudWatch dashboard URL", None)]
  }

  lemma AlarmTopicArnNotExportable()
    ensures !ShouldExportOutput("AlarmTopicArn")
  {
    NotExportable("AlarmTopicArn", "VSSCSLUDF");
  }

  lemma DashboardUrlNotExportable()
    ensures !ShouldExportOutput("DashboardUrl")
  {
    NotExportable("DashboardUrl", "VSSCSLAtF");
  }

  /** The outputs are AlarmTopicArn then DashboardUrl, and neither carries an export key. */
  lemma MonitoringOutputsExport(stackName: string, region: string, dashboardName: string)
    ensures OutputNames(MonitoringOutputs(stackName, region, dashboardName)) == ["AlarmTopicArn", "DashboardUrl"]
    ensures ExportsExactly(stackName, MonitoringOutputs(stackName, region, dashboardName), {})
  {
    AlarmTopicArnNotExportable();
    DashboardUrlNotExportable();
  }

  // ----- The stack -----

  class MonitoringStack {
    const base: N8nBaseStack
    const compute: ComputeStack
    const storage: Option<StorageHandle>
    const databaseKind: DatabaseKind
    const monitoringConfig: Option<MonitoringConfig>
    const alarmTopic: Topic
    var alarms: seq<Alarm>
    var metricFilters: seq<MetricFilter>
    var dashboard: Dashboard?

    /** `stack_prefix` */
    function Prefix(): string
      reads this
    {
      base.StackPrefix()
    }

    /** `SnsAction(self.alarm_topic)` */
    function TopicAction(): AlarmAction
      reads this
    {
      SnsAction(alarmTopic.topicArn)
    }

    function ClusterName(): string
      reads this
    {
      compute.cluster.clusterName
    }

    predicate Tunnel()
      reads this
    {
      TunnelMonitored(base.envConfig.settings)
    }

    /** What `__init__` leaves besides the outputs: the subscribed topic, the alarms and
        metric filters for what is deployed, and the dashboard with its rows. */
    ghost predicate Built()
      reads this, alarmTopic, dashboard
    {
      && alarmTopic.subscriptions == AlarmSubscriptions(monitoringConfig)
      && alarmTopic.topicName == base.GetResourceName("alarms", "")
      && alarmTopic.displayName == "n8n " + base.environmentName + " Alarms"
      && alarms == ExpectedAlarms(ClusterName(), storage, databaseKind, Tunnel(),
                                  CustomNamespace(monitoringConfig), TopicAction())
      && metricFilters == ExpectedFilters(Tunnel(), CustomNamespace(monitoringConfig))
      && dashboard != null && dashboard.dashboardName == base.GetResourceName("dashboard", "")
      && dashboard.rows == ExpectedRows(storage.Some?, Tunnel())
    }

    /** `__init__` after the base stack. */
    constructor (b: N8nBaseStack, compute: ComputeStack, storage: Option<StorageHandle>, database: DatabaseStack?)
      modifies b`outputs
      ensures base == b && this.compute == compute && this.storage == storage
      ensures databaseKind == KindOf(database) && monitoringConfig == b.envConfig.settings.monitoring
      ensures fresh(alarmTopic) && dashboard != null && fresh(dashboard)
      ensures Built()
      ensures b.outputs == old(b.outputs) + MonitoringOutputs(b.stackName, b.envConfig.region, dashboard.dashboardName)
    {
      var topic := CreateAlarmTopic(b, b.envConfig.settings.monitoring);
      base := b;
      this.compute := compute;
      this.storage := storage;
      databaseKind := KindOf(database);
      monitoringConfig := b.envConfig.settings.monitoring;
      alarmTopic := topic;
      alarms, metricFilters, dashboard := [], [], null;
      new;
      CreateAlarms();
      var d := CreateDashboard();
      dashboard := d;
      CreateCustomN8nMetrics();
      AddOutputs();
    }

    /** The alarm and filter lists before the custom metrics. */
    method CreateAlarms()
      requires alarms == [] && metricFilters == []
      modifies this`alarms, this`metricFilters
      ensures alarms == ComputeAlarms(ClusterName(), TopicAction()) + StorageAlarms(storage, TopicAction())
        + DatabaseAlarms(databaseKind, TopicAction())
        + (if Tunnel() then TunnelAlarms(ClusterName(), TopicAction()) else [])
      ensures metricFilters == if Tunnel() then TunnelFilters else []
    {
      ghost var compute, stored := ComputeAlarms(ClusterName(), TopicAction()), StorageAlarms(storage, TopicAction());
      ghost var database := DatabaseAlarms(databaseKind, TopicAction());
      CreateComputeAlarms();
      assert alarms == compute;
      if storage.Some? {
        CreateStorageAlarms();
      }
      assert alarms == compute + stored;
      if databaseKind != NoDatabase {
        CreateDatabaseAlarms();
      }
      assert alarms == compute + stored + database;
      var access := base.envConfig.settings.access;
      if access.Some? && access.value.accessType == Cloudflare {
        CreateCloudflareTunnelAlarms();
      }
    }

    method AddAlarm(alarm: Alarm)
      modifies this`alarms
      ensures alarms == old(alarms) + [alarm]
    {
      alarms := alarms + [alarm];
    }

    /** `logs.MetricFilter(...)` */
    method AddMetricFilter(filter: MetricFilter)
      modifies this`metricFilters
      ensures metricFilters == old(metricFilters) + [filter]
    {
      metricFilters := metricFilters + [filter];
    }

    /** `_create_compute_alarms` */
    method CreateComputeAlarms()
      modifies this`alarms
      ensures alarms == old(alarms) + ComputeAlarms(ClusterName(), TopicAction())
    {
      var action, cluster := TopicAction(), ClusterName();
      AddAlarm(Alarm(CpuAlarm, EcsMetric(CPUUtilization, cluster), 80, 3, Some(2), Some(GreaterThan),
                         Some(NotBreaching), [action]));
      AddAlarm(Alarm(MemoryAlarm, EcsMetric(MemoryUtilization, cluster), 85, 3, Some(2), Some(GreaterThan),
                         Some(NotBreaching), [action]));
      AddAlarm(Alarm(TaskCountAlarm, EcsMetric(RunningTaskCount, cluster), 1, 2, None, Some(LessThan),
                         Some(Breaching), [action]));
    }

    /** `_create_storage_alarms` */
    method CreateStorageAlarms()
      requires storage.Some?
      modifies this`alarms
      ensures alarms == old(alarms) + StorageAlarms(storage, TopicAction())
    {
      AddAlarm(Alarm(EfsBurstCreditAlarm,
                         Plain(MetricRef("AWS/EFS", BurstCreditBalance, Average), [("FileSystemId", storage.value.fileSystemId)]),
                         1000000000000, 1, None, Some(LessThan), Some(NotBreaching), [TopicAction()]));
    }

    /** `_create_database_alarms`: nothing for a database stack with neither an instance
        nor a cluster, and nothing yet for an Aurora cluster. */
    method CreateDatabaseAlarms()
      modifies this`alarms
      ensures alarms == old(alarms) + DatabaseAlarms(databaseKind, TopicAction())
    {
      if databaseKind != InstanceDatabase && databaseKind != ClusterDatabase {
        return;
      }
      var action := TopicAction();
      if databaseKind == InstanceDatabase {
        AddAlarm(Alarm(DatabaseCpuAlarm, InstanceMetric(CPUUtilization), 80, 3, Some(2), None, None, [action]));
        AddAlarm(Alarm(DatabaseConnectionsAlarm, InstanceMetric(DatabaseConnections), 50, 2, None, None, None, [action]));
      }
    }

    /** `_create_cloudflare_tunnel_alarms`: the two filters, then the two alarms. */
    method CreateCloudflareTunnelAlarms()
      modifies this`alarms, this`metricFilters
      ensures metricFilters == old(metricFilters) + TunnelFilters
      ensures alarms == old(alarms) + TunnelAlarms(ClusterName(), TopicAction())
    {
      var action, cluster := TopicAction(), ClusterName();
      AddMetricFilter(MetricFilter(CloudflareTunnelHealthMetric, TunnelNamespace));
      AddMetricFilter(MetricFilter(CloudflareTunnelErrorMetric, TunnelNamespace));
      AddAlarm(Alarm(CloudflareTunnelHealthAlarm,
                         Plain(MetricRef("AWS/ECS", ContainerHealthCheck, Average),
                               ServiceDimensions(cluster) + [("ContainerName", Lit("cloudflare-tunnel"))]),
                         1, 3, Some(2), Some(LessThan), Some(Breaching), [action]));
      AddAlarm(Alarm(CloudflareTunnelErrorAlarm,
                         Plain(MetricRef(TunnelNamespace, TunnelConnectionErrors, Sum), []),
                         10, 2, None, Some(GreaterThan), Some(NotBreaching), [action]));
    }

    /** `_create_dashboard` */
    method CreateDashboard() returns (d: Dashboard)
      ensures fresh(d) && d.dashboardName == base.GetResourceName("dashboard", "")
      ensures d.rows == BaseRows(storage.Some?, Tunnel())
    {
      d := new Dashboard(base.GetResourceName("dashboard", ""));
      d.AddWidgets([ServiceMetrics, TaskCount]);
      d.AddWidgets([RecentErrors]);
      if storage.Some? {
        d.AddWidgets([EfsMetrics]);
      }
      var access := base.envConfig.settings.access;
      if access.Some? && access.value.accessType == Cloudflare {
        d.AddWidgets([TunnelHealth, TunnelLogs]);
      }
    }

    /** `_create_custom_n8n_metrics` */
    method CreateCustomN8nMetrics()
      requires dashboard != null
      modifies this`alarms, this`metricFilters, dashboard`rows
      ensures metricFilters == old(metricFilters) + CustomFilters(CustomNamespace(monitoringConfig))
      ensures alarms == old(alarms) + CustomAlarms(CustomNamespace(monitoringConfig), databaseKind != NoDatabase,
                                                   TopicAction())
      ensures dashboard.rows == old(dashboard.rows) + CustomRows
    {
      var ns := if monitoringConfig.Some? then monitoringConfig.value.customMetricsNamespace else "N8n/Serverless";
      CreateWorkflowExecutionMetrics(ns);
      CreateWebhookMetrics(ns);
      CreateErrorMetrics(ns);
      CreatePerformanceMetrics(ns);
      CreateCustomMetricAlarms(ns);
      AddCustomMetricsToDashboard();
    }

    /** `_create_workflow_execution_metrics` */
    method CreateWorkflowExecutionMetrics(ns: string)
      modifies this`metricFilters
      ensures metricFilters == old(metricFilters) + WorkflowFilters(ns)
    {
      AddMetricFilter(MetricFilter(WorkflowSuccessMetric, ns));
      AddMetricFilter(MetricFilter(WorkflowFailureMetric, ns));
      AddMetricFilter(MetricFilter(WorkflowDurationMetric, ns));
    }

    /** `_create_webhook_metrics` */
    method CreateWebhookMetrics(ns: string)
      modifies this`metricFilters
      ensures metricFilters == old(metricFilters) + WebhookFilters(ns)
    {
      AddMetricFilter(MetricFilter(WebhookRequestMetric, ns));
      AddMetricFilter(MetricFilter(WebhookResponseTimeMetric, ns));
    }

    /** `_create_error_metrics` */
    method CreateErrorMetrics(ns: string)
      modifies this`metricFilters
      ensures metricFilters == old(metricFilters) + ErrorFilters(ns)
    {
      AddMetricFilter(MetricFilter(AuthErrorMetric, ns));
      AddMetricFilter(MetricFilter(DatabaseErrorMetric, ns));
    }

    /** `_create_performance_metrics` */
    method CreatePerformanceMetrics(ns: string)
      modifies this`metricFilters
      ensures metricFilters == old(metricFilters) + PerformanceFilters(ns)
    {
      AddMetricFilter(MetricFilter(NodeExecutionTimeMetric, ns));
      AddMetricFilter(MetricFilter(QueueDepthMetric, ns));
    }

    /** `_create_custom_metric_alarms` */
    method CreateCustomMetricAlarms(ns: string)
      modifies this`alarms
      ensures alarms == old(alarms) + CustomAlarms(ns, databaseKind != NoDatabase, TopicAction())
    {
      var action := TopicAction();
      AddAlarm(Alarm(WorkflowFailureRateAlarm,
                         FailureRate(MetricRef(ns, WorkflowExecutionFailure, Sum), MetricRef(ns, WorkflowExecutionSuccess, Sum)),
                         10, 3, Some(2), Some(GreaterThan), Some(NotBreaching), [action]));
      AddAlarm(Alarm(WebhookResponseTimeAlarm, Plain(MetricRef(ns, WebhookResponseTime, Average), []),
                         1000, 3, Some(2), Some(GreaterThan), Some(NotBreaching), [action]));
      if databaseKind != NoDatabase {
        AddAlarm(Alarm(DatabaseErrorRateAlarm, Plain(MetricRef(ns, DatabaseConnectionErrors, Sum), []),
                           5, 2, None, Some(GreaterThan), Some(NotBreaching), [action]));
      }
    }

    /** `_add_custom_metrics_to_dashboard` */
    method AddCustomMetricsToDashboard()
      requires dashboard != null
      modifies dashboard`rows
      ensures dashboard.rows == old(dashboard.rows) + CustomRows
    {
      dashboard.AddWidgets([WorkflowExecutions, WebhookPerformance]);
      dashboard.AddWidgets([PerformanceMetrics]);
      dashboard.AddWidgets([AuthenticationErrors24h, DatabaseErrors24h, WorkflowSuccessRate24h, TotalWorkflows24h]);
    }

    /** `_add_outputs` */
    method AddOutputs()
      requires dashboard != null
      modifies base`outputs
      ensures base.outputs == old(base.outputs) + MonitoringOutputs(base.stackName, base.envConfig.region,
                                                                     dashboard.dashboardName)
    {
      base.AddOutput("AlarmTopicArn", alarmTopic.topicArn, "SNS topic for alarms", None);
      base.AddOutput("DashboardUrl", Lit(DashboardUrl(base.envConfig.region, dashboard.dashboardName)),
                     "CloudWatch dashboard URL", None);
    }
  }

  /** `MonitoringStack(...)`: the environment error, else the stack. */
  method NewMonitoringStack(config: N8nConfig, environment: string, constructId: string, kwargs: PropOverrides,
                            compute: ComputeStack, storage: Option<StorageHandle>, database: DatabaseStack?)
    returns (r: Result<MonitoringStack>)
    ensures r.Failure? <==> environment !in config.environments
    ensures r.Failure? ==> r.error == EnvironmentNotFound(environment)
    ensures r.Success? ==>
      && fresh(r.value) && fresh(r.value.base)
      && r.value.base.Resolved(config, environment, constructId, kwargs)
      && r.value.compute == compute && r.value.storage == storage && r.value.databaseKind == KindOf(database)
      && r.value.monitoringConfig == r.value.base.envConfig.settings.monitoring
      && r.value.Built()
      && r.value.base.outputs == MonitoringOutputs(r.value.base.stackName, r.value.base.envConfig.region,
                                                   r.value.dashboard.dashboardName)
  {
    var b := NewBaseStack(config, environment, constructId, kwargs);
    if b.Failure? {
      return Failure(b.error);
    }
    var stack := new MonitoringStack(b.value, compute, storage, database);
    return Success(stack);
  }
}
