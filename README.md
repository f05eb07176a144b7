# kafka-docker-app, modelled in Dafny

The repository starts a single-broker Kafka stack in Docker and then runs a
consumer that copies every Kafka message into MongoDB. Three pieces carry
the decisions, and this project models each of them:

- **`startKafka.js`** (the launcher):
  - `startContainer` removes every container listed under `"/" + name`, then
    creates and starts a fresh one. It swallows every error.
  - `createTopics` asks the broker for each topic of its fixed list that the
    broker does not list yet, one request per topic, in list order.
  - `main` runs ZooKeeper, a 10 s wait, Kafka, a 20 s wait, the topic step and
    finally the consumer import. A failed topic step stops it before the
    import.
- **`src/consumer/consumer.js`** (the consumer):
  - It reads its settings from the environment and exits with code 1 when
    `MONGODB_URI` is unset or empty.
  - It connects to MongoDB, then to Kafka, and subscribes from the beginning
    to each topic of `TOPICS` (split on commas, each piece trimmed) or of a
    nine-topic default list.
  - It stores each message as one document in the collection named after
    the message's topic. The payload is the parsed JSON or `{raw: value}`.
    A failed insert is logged and skipped.
  - On SIGINT it disconnects and exits with code 0.
- **`src/consumer/config.js`** (shared configuration): JavaScript `||`
  fallback chains over the environment, the per-user group id and the
  `CONFIG` object.

## How the model is organised

| file | module | what it holds |
|---|---|---|
| `wrappers.dfy` | `Wrappers` | `Option` |
| `env.dfy` | `Env` | the environment as a map, and `a || b || fallback`, where an empty string counts as unset |
| `js_strings.dfy` | `JsStrings` | `String.prototype.split` on one character, `join`, `trim` |
| `config.dfy` | `Config` | `KAFKA_BROKER`, `userId`, `GROUP_ID`, `CONFIG` |
| `docker.dfy` | `Docker` | the container runtime as a class: a container list, the running set and the next id |
| `kafka_admin.dfy` | `KafkaAdmin` | the broker as seen by the admin client, as a class: the topic set and the log of create requests |
| `start_kafka.dfy` | `StartKafka` | `startContainer`, `createTopics`, `main` |
| `consumer.dfy` | `Consumer` | the settings, topic list, payload decoding, documents, startup trace, handler and SIGINT, the last four on a `Pipeline` class |
| `topology.dfy` | `Topology` | how the launcher's, the consumer's and the configuration's topic lists relate |

Every call to Docker, Kafka or MongoDB is a method on a class that holds the
service's state. Its success is chosen nondeterministically (`ok := *`), and
a failing call changes nothing apart from what the script can observe it
has sent. `JSON.parse` is a parameter `parse: string -> Option<Json>`, where
`None` means "throws". The reception time `new Date()` is a parameter as
well.

The consumer's startup is recorded as a trace of `Event`s:

- Connect to MongoDB.
- Connect to Kafka.
- Subscribe to each topic.
- Run the consumer.
- Insert a document (`InsertOne`).
- Disconnect.
- Exit with a code.

`StartupTrace` states, for each way startup can end, which events happened.
The launcher's `main` is recorded the same way: each of its steps (a
container launch with its outcome, a wait, the topic step, the consumer
import) appends itself to a shared `Timeline` log when it finishes, so
`Orchestrate`'s contract about the log is a statement about the order in
which the steps ran.
`Pipeline.Start` is proved to produce exactly that trace. The lemmas about
`StartupTrace` then state the ordering promises.

## Model

| member | source | states |
|---|---|---|
| Env.FirstTruthy | src/consumer/config.js:7-11 | the value of the first variable that is set and non-empty, scanning left to right; the fallback when there is none; never empty when the fallback is not |
| Config.KafkaBroker | src/consumer/config.js:4 | `KAFKA_BROKER` when it is non-empty, else `KAFKA_HOST_BROKER` when it is non-empty, else `localhost:29092` |
| Config.UserId | src/consumer/config.js:7-11 | the first non-empty of `CONSUMER_GROUP`, `USER`, `USERNAME`, `COMPUTERNAME`, else `local`; never empty |
| Config.GroupId | src/consumer/config.js:12 | the group id is `app-consumer-group-` followed by the user id, so it always starts with that prefix and is longer than it |
| Config.GroupIdWithoutIdentity | src/consumer/config.js:7-12 | with all four identity variables unset or empty, the group id is `app-consumer-group-local` |
| Config.MakeConfig | src/consumer/config.js:14-21 | `brokers` is the one-element list `[KAFKA_BROKER]`; `topics` has exactly the keys `payments` and `sales`, each mapped to its own name |
| JsStrings.Split | src/consumer/consumer.js:43 | `split(',')` yields one piece more than there are commas, and no piece contains a comma |
| JsStrings.JoinSplit | src/consumer/consumer.js:43 | joining the pieces with the separator gives the original string back |
| JsStrings.SplitJoin | src/consumer/consumer.js:43 | pieces free of the separator are exactly what splitting their join returns |
| JsStrings.CountAppend | src/consumer/consumer.js:43 | the separator count of a concatenation is the sum of the two counts |
| JsStrings.CountZero | src/consumer/consumer.js:43 | the separator count is zero exactly when the separator does not occur |
| JsStrings.TrimStart | src/consumer/consumer.js:43 | a suffix of the input that is empty or does not start with whitespace |
| JsStrings.TrimStartDropsWhitespace | src/consumer/consumer.js:43 | every character the leading trim drops is whitespace |
| JsStrings.TrimEnd | src/consumer/consumer.js:43 | a prefix of the input that is empty or does not end with whitespace |
| JsStrings.TrimEndDropsWhitespace | src/consumer/consumer.js:43 | every character the trailing trim drops is whitespace |
| JsStrings.Trim | src/consumer/consumer.js:43 | the result neither starts nor ends with whitespace |
| JsStrings.TrimSlice | src/consumer/consumer.js:43 | the trimmed string is the contiguous slice of the input that starts where the leading whitespace ends |
| JsStrings.TrimFixed | src/consumer/consumer.js:43 | a string that neither starts nor ends with whitespace is unchanged by trimming |
| JsStrings.TrimIdempotent | src/consumer/consumer.js:43 | trimming twice is the same as trimming once |
| JsStrings.TrimKeepsAbsent | src/consumer/consumer.js:43 | trimming never introduces a character, so a comma-free piece stays comma-free |
| Consumer.Broker | src/consumer/consumer.js:11 | `KAFKA_BROKER` when it is non-empty, else `kafka:9092` |
| Consumer.GroupId | src/consumer/consumer.js:14 | `GROUP_ID` when it is non-empty, else `app-consumer-group` |
| Consumer.DatabaseName | src/consumer/consumer.js:18 | `MONGO_DB_NAME` when it is non-empty, else `kafka_db` |
| Consumer.TrimAll | src/consumer/consumer.js:43 | same length as the input, each element the trimmed input element |
| Consumer.TopicList | src/consumer/consumer.js:42-54 | with `TOPICS` non-empty: comma count plus one names, the k-th being the trimmed k-th comma-separated piece; otherwise the nine default topics in source order |
| Consumer.TopicListClean | src/consumer/consumer.js:42-43 | every name of an override list is free of commas and of leading and trailing whitespace |
| Consumer.TopicListRoundTrip | src/consumer/consumer.js:42-43 | if every piece is already trimmed, joining the topic list with commas gives back the value of `TOPICS` |
| Consumer.SingleTopic | src/consumer/consumer.js:42-43 | an override is a single topic exactly when it holds no comma, and that topic is the whole value, trimmed |
| Consumer.TopicsConcatenate | src/consumer/consumer.js:42-43 | two non-empty `TOPICS` values joined with a comma name as many topics as the two values together |
| Consumer.EmptyPieceKept | src/consumer/consumer.js:42-43 | two adjacent commas after a comma-free first name give an empty second topic name: empty pieces are kept, not filtered out |
| Consumer.DecodePayload | src/consumer/consumer.js:65-73 | the payload is parsed JSON exactly when there is a value and `JSON.parse` accepts it, and it is then that JSON; otherwise it is `{raw: value}` holding the value as received |
| Consumer.MakeDocument | src/consumer/consumer.js:65-82 | the document carries the message's offset, the partition and the reception time, and its payload is exactly the decoded value: the parsed JSON when `JSON.parse` accepts the value, `{raw: value}` otherwise |
| Consumer.Insert | src/consumer/consumer.js:76-77 | `insertOne` appends the document to the named collection (created on first use); every other collection is unchanged |
| Consumer.ApplyCollection | src/consumer/consumer.js:75-86 | one handled delivery appends its document to the collection of its topic when its insert succeeded, and leaves every other collection, and a failed insert's collection, as they were |
| Consumer.IngestCollection | src/consumer/consumer.js:64-87 | after a run of the handler, each collection holds its earlier documents followed by one document per successfully inserted delivery on its topic, in delivery order |
| Consumer.IngestAppend | src/consumer/consumer.js:64-87 | handling two runs of deliveries one after the other is handling their concatenation |
| Consumer.FailedInsertIsolated | src/consumer/consumer.js:84-86 | a delivery whose insert failed leaves the store as it was, and later deliveries are handled as if it had not been there |
| Consumer.HandledOnce | src/consumer/consumer.js:75-82 | one handled delivery adds at most its own document, and only to the collection named after its topic |
| Consumer.Subscriptions | src/consumer/consumer.js:56-59 | one subscribe call per topic, in list order, each with `fromBeginning: true` |
| Consumer.ReadSettings | src/consumer/consumer.js:9-18 | the URI is read as given and is absent exactly when the variable is unset; the other settings are those of `DatabaseName`, `Broker`, `GroupId` and `TopicList` |
| Consumer.UriSetIsTruthy | src/consumer/consumer.js:20 | the URI check passes exactly when `MONGODB_URI` is set and non-empty |
| Consumer.SubscribedTopicsAppend | src/consumer/consumer.js:56-59 | the subscribed topics of a concatenated trace are those of the first part followed by those of the second |
| Consumer.SubscribedTopicsOf | src/consumer/consumer.js:56-59 | the subscribe calls for a list subscribe to exactly that list, in order |
| Consumer.NoSubscribes | src/consumer/consumer.js:56-59 | a trace without subscribe calls subscribes to nothing |
| Consumer.TraceAfterMongo | src/consumer/consumer.js:38-40 | once MongoDB is connected, the startup trace is that connection followed by the Kafka half |
| Consumer.NoUriNoConnection | src/consumer/consumer.js:20-23 | without a URI, startup's whole trace is an exit with code 1: no MongoDB or Kafka connection is attempted |
| Consumer.MongoBeforeKafka | src/consumer/consumer.js:26-40 | a Kafka connection is only ever the second event and comes straight after the MongoDB connection; a MongoDB failure never reaches Kafka |
| Consumer.ConsumingSubscribedAll | src/consumer/consumer.js:56-63 | a startup that ends with the consumer running subscribed to exactly the topic list, in order |
| Consumer.ConsumingTrace | src/consumer/consumer.js:38-63 | a successful startup connects to MongoDB with the URI and database name, connects to Kafka with the broker and group id, subscribes to each topic, then runs |
| Consumer.SubscribesFromBeginning | src/consumer/consumer.js:57 | every subscribe call of startup reads from the beginning |
| Consumer.ExitIsLast | src/consumer/consumer.js:20-23 | startup exits only as its last event and only with code 1, and a running consumer has not exited |
| Consumer.SubscribeTraceExit | src/consumer/consumer.js:97-100 | from the subscriptions on, the only exit is the last event and has code 1 |
| Consumer.Pipeline.ConnectMongo | src/consumer/consumer.js:26-36 | records the connection attempt; on success the database handle becomes the configured database, on failure it is unchanged |
| Consumer.Pipeline.SubscribeAll | src/consumer/consumer.js:56-59 | subscribes to each topic in order from the beginning; the first failure stops the loop, which has then subscribed to the topics up to and including the failing one |
| Consumer.Pipeline.Start | src/consumer/consumer.js:20-23 | the URI check, then `startConsumer`: the outcome is consistent with the settings, the events are exactly `StartupTrace` for it, the database handle is set exactly when MongoDB connected, and the store is untouched |
| Consumer.Pipeline.StartConsumer | src/consumer/consumer.js:26-40 | with a URI: connects to MongoDB and exits with code 1 on failure, otherwise goes on to Kafka; the events are exactly `StartupTrace` for the outcome, which is never the missing-URI one |
| Consumer.Pipeline.RunKafkaConsumer | src/consumer/consumer.js:40-63 | after MongoDB: connects to Kafka, then subscribes and runs; a failed Kafka connection exits with code 1 |
| Consumer.Pipeline.SubscribeAndRun | src/consumer/consumer.js:56-63 | the subscribe loop then `consumer.run`; a failure of either ends in exit code 1 |
| Consumer.Pipeline.HandleMessage | src/consumer/consumer.js:64-87 | with a database handle, exactly one `insertOne` of the message's document into the collection named after its topic; the store follows that insert when it succeeds and is unchanged otherwise; without a handle nothing is attempted |
| Consumer.Pipeline.Interrupt | src/consumer/consumer.js:91-95 | SIGINT disconnects, then exits with code 0 if the disconnect succeeded |
| Docker.NamedMembers | startKafka.js:28-29 | the selected containers are exactly the listed ones that have `"/" + name` among their names |
| Docker.WithoutMembers | startKafka.js:28-29 | the kept containers are exactly the listed ones that do not |
| Docker.WithoutIdempotent | startKafka.js:28-34 | filtering out a name twice is filtering it once |
| Docker.WithoutHasNoneNamed | startKafka.js:28-34 | after filtering out a name, no container is listed under it |
| Docker.AtMostOneNamed | startKafka.js:37-42 | in a well-formed runtime, where no two containers share a name, at most one container is listed under any name |
| Docker.RemoveIdWellFormed | startKafka.js:31-32 | removing a container by id keeps the runtime well-formed |
| Docker.Runtime.ListAll | startKafka.js:27 | on success, the listing is the runtime's containers |
| Docker.Runtime.Remove | startKafka.js:31-32 | forced removal by id deletes that container and stops it; an unknown id fails; a failure changes nothing |
| Docker.Runtime.Create | startKafka.js:37-42 | on success, appends a container listed under `"/" + name` with the given image, ports and env and a fresh id, which is not running; a name already in use is refused |
| Docker.Runtime.Start | startKafka.js:43 | on success, the container is running; an unknown id fails; only listed containers ever run |
| KafkaAdmin.Cluster.Connect | startKafka.js:84 | on success, the admin client is connected; topics and requests are unchanged |
| KafkaAdmin.Cluster.ListTopics | startKafka.js:86 | on success, returns the broker's topics |
| KafkaAdmin.Cluster.CreateTopics | startKafka.js:90 | logs the request; on success, the named topics exist |
| KafkaAdmin.Cluster.Disconnect | startKafka.js:96 | on success, the admin client is disconnected |
| StartKafka.RemoveMatching | startKafka.js:27-34 | the removal loop: the containers of other names are untouched and keep running, nothing new appears and nothing starts; with no container under the name it cannot fail; on success the runtime holds exactly the containers of other names, in order, and the removed ones are no longer running |
| StartKafka.RemoveIfMatching | startKafka.js:29-33 | one turn of the loop removes the container at hand exactly when it matches; a turn over a container of another name makes no call and cannot fail |
| StartKafka.StartContainer | startKafka.js:25-48 | containers of other names are untouched, keep their order and keep running whatever the outcome; the only new container is the one created here, from the given descriptor; at most one container holds the name afterwards; each failure stage leaves the state stated per stage (a failed removal starts nothing and needs a container under the name; a failed start leaves the new container stopped); on success the one container under the name is the new one and it is running |
| StartKafka.Missing | startKafka.js:87-88 | the topics to create are no more than the required ones |
| StartKafka.MissingMembers | startKafka.js:87-88 | a topic is requested exactly when it is required and not listed |
| StartKafka.MissingAppend | startKafka.js:87-93 | scanning one more required topic adds it to the plan exactly when it is not listed |
| StartKafka.MissingEmpty | startKafka.js:88-93 | nothing is requested exactly when every required topic is listed |
| StartKafka.NothingMissingAfterProvisioning | startKafka.js:86-94 | once every required topic has been added, a second run requests nothing |
| StartKafka.MissingDistinct | startKafka.js:87-90 | with a duplicate-free required list, no topic is requested twice |
| StartKafka.OneEach | startKafka.js:90 | one request per topic, holding just that topic |
| StartKafka.CreateEachMissing | startKafka.js:86-94 | the create loop: requests form a prefix of one request per missing topic in list order; topics only grow and stay within the listed set plus the required ones; with nothing missing it cannot fail; on success exactly those requests were made and every required topic exists |
| StartKafka.StoppedWithinPlan | startKafka.js:87-94 | a create loop that fails at a topic has requested and created no more than the full plan, and that plan was not empty |
| StartKafka.CreateIfMissing | startKafka.js:88-93 | one turn of the loop requests the topic at hand exactly when it was not listed; a turn over a listed topic makes no call and cannot fail |
| StartKafka.CreateTopics | startKafka.js:80-98 | nothing is removed; the requests are a prefix of the plan; on success the topics are the old ones plus `TOPICS`, one request per missing topic in order, and the client is disconnected; if all topics already exist nothing changes |
| StartKafka.MissingPrefix | startKafka.js:87-94 | the plan for a prefix of the list is a prefix of the full plan |
| StartKafka.RequestsWithinPlan | startKafka.js:87-94 | the requests for a prefix of the list are a prefix of the full request list |
| StartKafka.StartZookeeper | startKafka.js:50-57 | `startContainer` with the ZooKeeper descriptor, logged as a launch step with its outcome; containers of other names and their running state are kept; on success the one `/zookeeper` container is the new ZooKeeper container and it runs |
| StartKafka.StartKafkaBroker | startKafka.js:59-74 | `startContainer` with the Kafka descriptor, logged as a launch step with its outcome; containers of other names and their running state are kept; on success the one `/kafka` container is the new Kafka container and it runs |
| StartKafka.WaitFor | startKafka.js:76-78 | `wait(ms)` logs a wait of exactly `ms` and changes nothing else |
| StartKafka.ProvisionTopics | startKafka.js:109 | `createTopics()` as a step of `main`, logged with whether it ended normally; when it did, every topic of `TOPICS` exists |
| StartKafka.LoadConsumer | startKafka.js:111-112 | the consumer import is logged as the hand-over step |
| StartKafka.LaunchContainers | startKafka.js:100-105 | logs ZooKeeper's launch, the 10 s wait and Kafka's launch, in that order; neither name is held twice; a ZooKeeper container that started is still listed and still running after the Kafka step |
| StartKafka.ZookeeperSurvives | startKafka.js:28-29 | a container listed only as `/zookeeper` does not match `kafka`, so the Kafka step keeps it |
| StartKafka.IdNotNamed | startKafka.js:28-32 | in a well-formed listing, a container that does not match a name shares its id with none of the matches, so removing the matches by id spares it |
| StartKafka.NamedPrefixIds | startKafka.js:28-32 | the matches among the containers scanned so far are among all the matches |
| StartKafka.Orchestrate | startKafka.js:100-113 | the steps, as each appends itself to the shared log, run in the order ZooKeeper, wait 10000, Kafka, wait 20000, topics, then the consumer import exactly when the topic step succeeded; when the consumer is imported every topic of `TOPICS` exists; a ZooKeeper container that started is still there and running at the end |
| Topology.ProvisionedAreConsumed | startKafka.js:16-23 | every topic the launcher creates is in the consumer's default list |
| Topology.ConsumedButNotProvisioned | src/consumer/consumer.js:44-54 | the default topics the launcher never creates are exactly `age_analysis`, `sales_transactions` and `representative` |
| Topology.ConfigTopicsProvisioned | src/consumer/config.js:17-20 | the topics named in `CONFIG` are all created by the launcher |

## Left out

- Network I/O with Docker, Kafka and MongoDB is left out. Each service is
  reduced to the state the scripts observe, and each call may fail
  nondeterministically.
- Timing is left out. `wait(ms)` is recorded as a `Wait(ms)` step, and the
  waits' actual durations and the readiness of the services are not modelled.
- Logging (`console.log` and `console.error`) is left out. It is observable
  only as output.
- dotenv loading is left out. The environment is a parameter.
- The internals of `JSON.parse` are left out. It is an abstract partial
  decoder, and JSON numbers are `real`.
- `new Date()` is a parameter `receivedAt`.
- BSON encoding of stored documents is left out.
- kafkajs consumer-group semantics are left out: offset commits,
  redelivery, partition order and concurrent `eachMessage` calls. Each
  delivery is one call of `Pipeline.HandleMessage`, and a run of deliveries
  is the fold `Consumer.Ingest`.
- Real process exit and signal delivery are left out. An exit is the
  `Exit(code)` event, and the model does not stop further calls after it.
- Consumer.Pipeline.Interrupt: a failed `consumer.disconnect()` rejects the
  async SIGINT handler. What Node then does with the unhandled rejection is
  not modelled. The model only records that `exit(0)` is not reached.
- The admin client left connected after a failed `createTopics` is left
  out. It is recorded in `connected` but not tracked further.
- `consumer.js` runs its URI check at module load, after constructing the
  Kafka client object. Constructing that object makes no connection, so it
  is not an event.
- `src/producer/producer.js` is not part of this model. It publishes four
  fixed strings and contains no decisions.
- The unused constants `KAFKA_PORT` and `ZOOKEEPER_PORT` (startKafka.js:12-13)
  are not modelled.
- The port bindings are a list of `PortBinding`s instead of dockerode's
  object of arrays. Their contents are carried, not interpreted.
- `consumer.js` does not import `config.js`. It has its own defaults
  (`kafka:9092`, `app-consumer-group`, `kafka_db`), and the model keeps the
  two modules separate.
- JsStrings.Trim: the whitespace set is ECMAScript's fixed list of
  WhiteSpace and LineTerminator code points. A Unicode version that adds new
  space separators is not followed.
- Strings are sequences of Unicode characters, not UTF-16 code units. The
  consumer only splits on `,` and trims, and these are unaffected.
