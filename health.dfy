/** The transcoder's health check: the object-store and Kafka probes are folded into an
    overall status and a per-dependency report. The probes' network calls are parameters
    giving their outcome. */
module TranscoderHealth {
  import opened Results
  import TranscoderStorage

  datatype HealthHandler = HealthHandler(storage: TranscoderStorage.MinIOStorage,
                                         kafkaBrokers: seq<string>, kafkaTopic: string)

  datatype HealthStatus = HealthStatus(status: string, dependencies: map<string, string>,
                                       timestamp: string, version: string)

  /** The topic the Kafka probe asks to be created. */
  datatype TopicConfig = TopicConfig(topic: string, numPartitions: int, replicationFactor: int)

  /** `checkMinIO`: the storage's own bucket probe. */
  function CheckMinIO(h: HealthHandler, bucketExists: string -> Result<bool>): Outcome
  {
    TranscoderStorage.CheckHealth(h.storage, bucketExists)
  }

  /** `checkKafka`: dial the first broker, then create (or find) the topic with three
      partitions and one replica. Indexing the first broker of an empty list panics in Go. */
  function CheckKafka(h: HealthHandler, dial: string -> Outcome, createTopics: TopicConfig -> Outcome): (o: Outcome)
    requires |h.kafkaBrokers| > 0
    ensures o.Pass? <==> dial(h.kafkaBrokers[0]).Pass? && createTopics(TopicConfig(h.kafkaTopic, 3, 1)).Pass?
    ensures dial(h.kafkaBrokers[0]).Fail? ==> o == Fail("failed to connect to Kafka: " + dial(h.kafkaBrokers[0]).error)
  {
    var conn := dial(h.kafkaBrokers[0]);
    if conn.Fail? then Fail("failed to connect to Kafka: " + conn.error)
    else
      var created := createTopics(TopicConfig(h.kafkaTopic, 3, 1));
      if created.Fail? then Fail("failed to create/verify topic: " + created.error)
      else Pass
  }

  /** The report of one dependency: "ok", or "error: " and the probe's error. */
  function DependencyState(o: Outcome): (s: string)
    ensures s == "ok" <==> o.Pass?
    ensures o.Fail? ==> s == "error: " + o.error
  {
    if o.Pass? then "ok" else "error: " + o.error
  }

  /** `RunHealthCheck`: start "ok" with no dependencies; probe the object store, then Kafka,
      recording each, and degrade the status on any failure. */
  method RunHealthCheck(h: HealthHandler, bucketExists: string -> Result<bool>,
                        dial: string -> Outcome, createTopics: TopicConfig -> Outcome, now: string)
    returns (status: HealthStatus)
    requires |h.kafkaBrokers| > 0
    ensures status.status == "ok" <==> CheckMinIO(h, bucketExists).Pass? && CheckKafka(h, dial, createTopics).Pass?
    ensures status.status == "ok" || status.status == "degraded"
    ensures status.dependencies.Keys == {"minio", "kafka"}
    ensures status.dependencies["minio"] == DependencyState(CheckMinIO(h, bucketExists))
    ensures status.dependencies["kafka"] == DependencyState(CheckKafka(h, dial, createTopics))
    ensures status.timestamp == now && status.version == "1.0.0"
  {
    status := HealthStatus("ok", map[], now, "1.0.0");
    var minioStatus := "ok";
    var err := CheckMinIO(h, bucketExists);
    if err.Fail? {
      minioStatus := "error: " + err.error;
      status := status.(status := "degraded");
    }
    status := status.(dependencies := status.dependencies["minio" := minioStatus]);
    var kafkaStatus := "ok";
    err := CheckKafka(h, dial, createTopics);
    if err.Fail? {
      kafkaStatus := "error: " + err.error;
      status := status.(status := "degraded");
    }
    status := status.(dependencies := status.dependencies["kafka" := kafkaStatus]);
  }

  /** `HandleHealthCheck`: the report is always sent with HTTP status 200. */
  method HandleHealthCheck(h: HealthHandler, bucketExists: string -> Result<bool>,
                           dial: string -> Outcome, createTopics: TopicConfig -> Outcome, now: string)
    returns (code: int, body: HealthStatus)
    requires |h.kafkaBrokers| > 0
    ensures code == 200
    ensures body.status == "ok" <==> CheckMinIO(h, bucketExists).Pass? && CheckKafka(h, dial, createTopics).Pass?
  {
    body := RunHealthCheck(h, bucketExists, dial, createTopics, now);
    code := 200;
  }

  /** The start-up gate: the service starts only when the initial check reports "ok", that
      is, when both probes pass; a Kafka failure stops it even when the store is up. */
  method InitialHealthCheck(h: HealthHandler, bucketExists: string -> Result<bool>,
                            dial: string -> Outcome, createTopics: TopicConfig -> Outcome, now: string)
    returns (starts: bool)
    requires |h.kafkaBrokers| > 0
    ensures starts <==> bucketExists(h.storage.bucketName) == Ok(true)
                        && dial(h.kafkaBrokers[0]).Pass? && createTopics(TopicConfig(h.kafkaTopic, 3, 1)).Pass?
  {
    var status := RunHealthCheck(h, bucketExists, dial, createTopics, now);
    starts := status.status == "ok";
  }
}
