/** The ingestion consumer (src/consumer/consumer.js): it reads its settings
    from the environment, refuses to start without a MongoDB URI, connects to
    MongoDB and then to Kafka, subscribes to each topic of its list from the
    beginning, and stores every message it is handed as one document in the
    collection named after the message's topic. */
module Consumer {
  import opened Wrappers
  import opened Env
  import opened JsStrings

  // ---------------------------------------------------------------------------
  // Settings read from the environment (this file does not use the
  // configuration module; its defaults are its own)

  const BrokerDefault := "kafka:9092"
  const GroupDefault := "app-consumer-group"
  const DatabaseDefault := "kafka_db"

  /** The topics consumed when `TOPICS` is unset or empty. */
  const DefaultTopics: seq<string> := [
    "age_analysis", "payments", "purchases", "sales_transactions", "customer",
    "products", "representative", "suppliers", "sales"]

  /** `KAFKA_BROKER || 'kafka:9092'`. */
  function Broker(env: Env): (r: string)
    ensures r == if Truthy(env, "KAFKA_BROKER") then env["KAFKA_BROKER"] else BrokerDefault
  {
    FirstTruthy(env, ["KAFKA_BROKER"], BrokerDefault)
  }

  /** `GROUP_ID || 'app-consumer-group'`. */
  function GroupId(env: Env): (r: string)
    ensures r == if Truthy(env, "GROUP_ID") then env["GROUP_ID"] else GroupDefault
  {
    FirstTruthy(env, ["GROUP_ID"], GroupDefault)
  }

  /** `MONGO_DB_NAME || 'kafka_db'`. */
  function DatabaseName(env: Env): (r: string)
    ensures r == if Truthy(env, "MONGO_DB_NAME") then env["MONGO_DB_NAME"] else DatabaseDefault
  {
    FirstTruthy(env, ["MONGO_DB_NAME"], DatabaseDefault)
  }

  /** `parts.map(t => t.trim())`. */
  function TrimAll(parts: seq<string>): (r: seq<string>)
    ensures |r| == |parts| && forall k :: 0 <= k < |r| ==> r[k] == Trim(parts[k])
  {
    seq(|parts|, k requires 0 <= k < |parts| => Trim(parts[k]))
  }

  /** The subscription list: with `TOPICS` set and non-empty, its pieces between
      commas, each trimmed, empty pieces included; otherwise the nine default
      topics. */
  function TopicList(env: Env): (r: seq<string>)
    ensures Truthy(env, "TOPICS") ==>
      |r| == Count(env["TOPICS"], ',') + 1 &&
      forall k :: 0 <= k < |r| ==> r[k] == Trim(Split(env["TOPICS"], ',')[k])
    ensures !Truthy(env, "TOPICS") ==> r == DefaultTopics
  {
    if Truthy(env, "TOPICS") then TrimAll(Split(env["TOPICS"], ',')) else DefaultTopics
  }

  /** Every name of an override list is free of commas and of surrounding
      whitespace. */
  lemma TopicListClean(env: Env, k: nat)
    requires Truthy(env, "TOPICS") && k < |TopicList(env)|
    ensures ',' !in TopicList(env)[k]
    ensures TopicList(env)[k] == [] ||
      (!IsWhitespace(TopicList(env)[k][0]) && !IsWhitespace(TopicList(env)[k][|TopicList(env)[k]| - 1]))
  {
    TrimKeepsAbsent(Split(env["TOPICS"], ',')[k], ',');
  }

  /** An override whose pieces are already trimmed is read back piece for
      piece: joining the list with commas gives the variable's value. */
  lemma TopicListRoundTrip(env: Env)
    requires Truthy(env, "TOPICS")
    requires forall k :: 0 <= k < |Split(env["TOPICS"], ',')| ==>
      Trim(Split(env["TOPICS"], ',')[k]) == Split(env["TOPICS"], ',')[k]
    ensures Join(TopicList(env), ',') == env["TOPICS"]
  {
    var parts := Split(env["TOPICS"], ',');
    var r := TrimAll(parts);
    assert TopicList(env) == r;
    forall k | 0 <= k < |r|
      ensures r[k] == parts[k]
    {
    }
    assert r == parts;
    JoinSplit(env["TOPICS"], ',');
  }

  /** An override is a single topic exactly when it holds no comma, and that
      topic is then the whole value, trimmed. */
  lemma SingleTopic(env: Env)
    requires Truthy(env, "TOPICS")
    ensures |TopicList(env)| == 1 <==> ',' !in env["TOPICS"]
    ensures ',' !in env["TOPICS"] ==> TopicList(env) == [Trim(env["TOPICS"])]
  {
    CountZero(env["TOPICS"], ',');
    if ',' !in env["TOPICS"] {
      SplitNoSeparator(env["TOPICS"], ',');
    }
  }

  /** Two non-empty overrides joined with a comma name as many topics as both
      together. */
  lemma TopicsConcatenate(a: string, b: string)
    requires a != "" && b != ""
    ensures |TopicList(map["TOPICS" := a + "," + b])| ==
      |TopicList(map["TOPICS" := a])| + |TopicList(map["TOPICS" := b])|
  {
    var v := a + "," + b;
    var both, first, second := map["TOPICS" := v], map["TOPICS" := a], map["TOPICS" := b];
    assert both["TOPICS"] == v && Truthy(both, "TOPICS");
    assert first["TOPICS"] == a && Truthy(first, "TOPICS");
    assert second["TOPICS"] == b && Truthy(second, "TOPICS");
    assert v == a + ("," + b);
    CountAppend(a, "," + b, ',');
    CountAppend(",", b, ',');
    assert Count(",", ',') == 1 by {
      assert ","[1..] == [];
    }
  }

  /** Empty pieces are kept: two adjacent commas after a first name give an
      empty second name rather than being merged. */
  lemma EmptyPieceKept(head: string, tail: string)
    requires ',' !in head
    ensures |TopicList(map["TOPICS" := head + ",," + tail])| >= 3
    ensures TopicList(map["TOPICS" := head + ",," + tail])[1] == ""
  {
    var v := head + ",," + tail;
    var env := map["TOPICS" := v];
    assert env["TOPICS"] == v && v != [] && Truthy(env, "TOPICS");
    assert v == head + [','] + ([','] + tail);
    SplitPiece(head, [','] + tail, ',');
    assert [','] + tail == [] + [','] + tail;
    SplitPiece([], tail, ',');
    var pieces := Split(v, ',');
    assert pieces == [head] + ([[]] + Split(tail, ','));
    assert pieces[1] == [];
    assert TrimStart([]) == [] && TrimEnd([]) == [];
  }

  // ---------------------------------------------------------------------------
  // Messages and stored documents

  /** A JSON value as `JSON.parse` returns it. */
  datatype Json =
    | JNull
    | JBool(b: bool)
    | JNumber(n: real)
    | JString(s: string)
    | JArray(items: seq<Json>)
    | JObject(fields: seq<(string, Json)>)

  /** The `payload` field of a stored document: the parsed value, or the
      fallback object `{raw: value}` holding the text as received (`None` for
      a message without a value, whose text is `undefined`). */
  datatype Payload = Parsed(json: Json) | Raw(raw: Option<string>)

  /** What the consumer reads of a Kafka message: its offset (kafkajs gives it
      as a string) and its value decoded to text, if it has one. */
  datatype Message = Message(offset: string, value: Option<string>)

  /** The document inserted for a message. */
  datatype Document = Document(kafkaOffset: string, partition: int, receivedAt: int, payload: Payload)

  /** `JSON.parse(value)` with the `{raw: value}` fallback. `parse` stands for
      `JSON.parse`: `None` where it throws. A missing value is the text
      `undefined`, which `JSON.parse` always rejects. */
  function DecodePayload(value: Option<string>, parse: string -> Option<Json>): (p: Payload)
    ensures p.Parsed? <==> value.Some? && parse(value.value).Some?
    ensures p.Parsed? ==> parse(value.value) == Some(p.json)
    ensures p.Raw? ==> p.raw == value
  {
    match value
    case None => Raw(None)
    case Some(text) =>
      match parse(text)
      case Some(j) => Parsed(j)
      case None => Raw(value)
  }

  /** The document built for `message` received at `receivedAt` on `partition`:
      its payload is the decoded value, so a value `JSON.parse` accepts is
      stored parsed and any other is stored as received. */
  function MakeDocument(message: Message, partition: int, receivedAt: int, parse: string -> Option<Json>): (d: Document)
    ensures d.kafkaOffset == message.offset && d.partition == partition && d.receivedAt == receivedAt
    ensures d.payload == DecodePayload(message.value, parse)
  {
    Document(message.offset, partition, receivedAt, DecodePayload(message.value, parse))
  }

  /** The database: collection name to the documents inserted, in order. */
  type Store = map<string, seq<Document>>

  /** A collection's documents; a collection never written to is empty. */
  function Collection(store: Store, name: string): seq<Document> {
    if name in store then store[name] else []
  }

  /** `insertOne` into collection `name`, which comes into being on first use. */
  function Insert(store: Store, name: string, doc: Document): (r: Store)
    ensures Collection(r, name) == Collection(store, name) + [doc]
    ensures forall n :: n != name ==> Collection(r, n) == Collection(store, n)
  {
    store[name := Collection(store, name) + [doc]]
  }

  /** A message handed to the handler with the time it was received. */
  datatype Delivery = Delivery(topic: string, partition: int, message: Message, receivedAt: int)

  /** A handled delivery and whether its insert succeeded. */
  datatype Handled = Handled(delivery: Delivery, inserted: bool)

  function DocumentOf(d: Delivery, parse: string -> Option<Json>): Document {
    MakeDocument(d.message, d.partition, d.receivedAt, parse)
  }

  /** The store after the handler has run on one delivery: its document
      inserted into the collection of its topic, or nothing on a failed insert. */
  function Apply(store: Store, h: Handled, parse: string -> Option<Json>): Store {
    if h.inserted then Insert(store, h.delivery.topic, DocumentOf(h.delivery, parse)) else store
  }

  /** What one handled delivery adds to the collection `topic`. */
  function Added(h: Handled, topic: string, parse: string -> Option<Json>): seq<Document> {
    if h.inserted && h.delivery.topic == topic then [DocumentOf(h.delivery, parse)] else []
  }

  /** One delivery appends to the collection of its topic what it adds, and
      to no other. */
  lemma ApplyCollection(store: Store, h: Handled, topic: string, parse: string -> Option<Json>)
    ensures Collection(Apply(store, h, parse), topic) == Collection(store, topic) + Added(h, topic, parse)
  {
  }

  /** The store after the handler has run on each delivery of `hs` in turn. */
  function Ingest(store: Store, hs: seq<Handled>, parse: string -> Option<Json>): Store
    decreases |hs|
  {
    if hs == [] then store else Ingest(Apply(store, hs[0], parse), hs[1..], parse)
  }

  /** The documents that the deliveries of `hs` on `topic` with a successful
      insert contribute, in delivery order. */
  function StoredFor(hs: seq<Handled>, topic: string, parse: string -> Option<Json>): seq<Document>
    decreases |hs|
  {
    if hs == [] then [] else Added(hs[0], topic, parse) + StoredFor(hs[1..], topic, parse)
  }

  /** After a run of the handler, each collection holds what it held before
      followed by one document per delivery on its topic whose insert
      succeeded, in delivery order. A failed insert costs only its own
      document: the deliveries after it are stored all the same. */
  lemma {:induction false} IngestCollection(store: Store, hs: seq<Handled>, topic: string, parse: string -> Option<Json>)
    ensures Collection(Ingest(store, hs, parse), topic) == Collection(store, topic) + StoredFor(hs, topic, parse)
    decreases |hs|
  {
    if hs != [] {
      var next, own, rest := Apply(store, hs[0], parse), Added(hs[0], topic, parse), hs[1..];
      assert Ingest(store, hs, parse) == Ingest(next, rest, parse);
      assert StoredFor(hs, topic, parse) == own + StoredFor(rest, topic, parse);
      ApplyCollection(store, hs[0], topic, parse);
      IngestCollection(next, rest, topic, parse);
      assert Collection(store, topic) + own + StoredFor(rest, topic, parse) ==
        Collection(store, topic) + (own + StoredFor(rest, topic, parse));
    }
  }

  lemma {:induction false} IngestAppend(store: Store, a: seq<Handled>, b: seq<Handled>, parse: string -> Option<Json>)
    ensures Ingest(store, a + b, parse) == Ingest(Ingest(store, a, parse), b, parse)
    decreases |a|
  {
    if a == [] {
      assert a + b == b;
    } else {
      assert (a + b)[0] == a[0] && (a + b)[1..] == a[1..] + b;
      IngestAppend(Apply(store, a[0], parse), a[1..], b, parse);
    }
  }

  /** A delivery whose insert failed leaves the store as it was, and the
      deliveries after it are handled exactly as if it had not been there. */
  lemma FailedInsertIsolated(store: Store, before: seq<Handled>, d: Delivery, after: seq<Handled>,
                             parse: string -> Option<Json>)
    ensures Ingest(store, before + [Handled(d, false)] + after, parse) ==
      Ingest(Ingest(store, before, parse), after, parse)
  {
    IngestAppend(store, before + [Handled(d, false)], after, parse);
    IngestAppend(store, before, [Handled(d, false)], parse);
  }

  // ---------------------------------------------------------------------------
  // Startup, the message handler and shutdown

  /** What the consumer asks of MongoDB, Kafka and the process, in order. */
  datatype Event =
    | MongoConnect(uri: string, database: string)
    | KafkaConnect(broker: string, groupId: string)
    | Subscribe(topic: string, fromBeginning: bool)
    | RunConsumer
    | InsertOne(collection: string, doc: Document)
    | Disconnect
    | Exit(code: int)

  /** Why startup ended the process. */
  datatype StartFailure = UriMissing | MongoFailed | KafkaFailed | SubscribeFailed(index: nat) | RunFailed

  /** How startup ends: with the consumer running, or with the process exiting. */
  datatype StartOutcome = Consuming | Exited(cause: StartFailure)

  /** The subscribe calls for `topics`, in order, each from the beginning. */
  function Subscriptions(topics: seq<string>): (r: seq<Event>)
    ensures |r| == |topics|
    ensures forall k :: 0 <= k < |r| ==> r[k] == Subscribe(topics[k], true)
  {
    seq(|topics|, k requires 0 <= k < |topics| => Subscribe(topics[k], true))
  }

  /** The settings the consumer reads from the environment when it loads. */
  datatype Settings = Settings(uri: Option<string>, database: string, broker: string, groupId: string,
                               topics: seq<string>)

  /** `MONGODB_URI` as read (`None` when unset), the database name, the broker,
      the group id and the subscription list. */
  function ReadSettings(env: Env): (c: Settings)
    ensures c.uri.Some? <==> "MONGODB_URI" in env
    ensures c.uri.Some? ==> c.uri.value == env["MONGODB_URI"]
    ensures c.database == DatabaseName(env) && c.broker == Broker(env) && c.groupId == GroupId(env)
    ensures c.topics == TopicList(env)
  {
    Settings(if "MONGODB_URI" in env then Some(env["MONGODB_URI"]) else None,
             DatabaseName(env), Broker(env), GroupId(env), TopicList(env))
  }

  /** `!MONGODB_URI` is false: the URI is set and not empty. */
  predicate UriSet(c: Settings) {
    c.uri.Some? && c.uri.value != ""
  }

  /** The URI check reads the environment as a JavaScript `||` chain does. */
  lemma UriSetIsTruthy(env: Env)
    ensures UriSet(ReadSettings(env)) <==> Truthy(env, "MONGODB_URI")
  {
  }

  /** The outcomes startup can have under settings `c`: the URI check alone
      decides whether it stops before connecting, and a failed subscribe is
      one of the listed topics. */
  predicate Consistent(c: Settings, o: StartOutcome) {
    (o == Exited(UriMissing) <==> !UriSet(c)) &&
    (o.Exited? && o.cause.SubscribeFailed? ==> o.cause.index < |c.topics|)
  }

  /** Whether startup got past the URI check and the MongoDB connection. */
  predicate MongoConnected(o: StartOutcome) {
    o != Exited(UriMissing) && o != Exited(MongoFailed)
  }

  /** The events of the Kafka half of a startup that ends in `o`, once
      MongoDB is connected. */
  function KafkaTrace(c: Settings, o: StartOutcome): seq<Event>
    requires Consistent(c, o) && MongoConnected(o)
  {
    [KafkaConnect(c.broker, c.groupId)] + (if o == Exited(KafkaFailed) then [Exit(1)] else SubscribeTrace(c, o))
  }

  /** The events of a startup that ends in `o`, from the first subscription on. */
  function SubscribeTrace(c: Settings, o: StartOutcome): seq<Event>
    requires Consistent(c, o) && MongoConnected(o) && o != Exited(KafkaFailed)
  {
    match o
    case Exited(SubscribeFailed(i)) => Subscriptions(c.topics[..i + 1]) + [Exit(1)]
    case Exited(RunFailed) => Subscriptions(c.topics) + [RunConsumer, Exit(1)]
    case Consuming => Subscriptions(c.topics) + [RunConsumer]
  }

  /** The events of a startup that ends in `o`. */
  function StartupTrace(c: Settings, o: StartOutcome): seq<Event>
    requires Consistent(c, o)
  {
    if o == Exited(UriMissing) then [Exit(1)]
    else
      var mongo := MongoConnect(c.uri.value, c.database);
      if o == Exited(MongoFailed) then [mongo, Exit(1)] else [mongo] + KafkaTrace(c, o)
  }

  /** Once MongoDB is connected, startup's trace is that connection followed
      by the Kafka half. */
  lemma TraceAfterMongo(c: Settings, o: StartOutcome)
    requires Consistent(c, o) && MongoConnected(o)
    ensures StartupTrace(c, o) == [MongoConnect(c.uri.value, c.database)] + KafkaTrace(c, o)
  {
  }

  /** The topics of the subscribe calls in `events`, in order. */
  function SubscribedTopics(events: seq<Event>): seq<string>
    decreases |events|
  {
    if events == [] then []
    else (if events[0].Subscribe? then [events[0].topic] else []) + SubscribedTopics(events[1..])
  }

  lemma {:induction false} SubscribedTopicsAppend(a: seq<Event>, b: seq<Event>)
    ensures SubscribedTopics(a + b) == SubscribedTopics(a) + SubscribedTopics(b)
    decreases |a|
  {
    if a == [] {
      assert a + b == b;
    } else {
      assert (a + b)[0] == a[0] && (a + b)[1..] == a[1..] + b;
      SubscribedTopicsAppend(a[1..], b);
    }
  }

  lemma {:induction false} SubscribedTopicsOf(topics: seq<string>)
    ensures SubscribedTopics(Subscriptions(topics)) == topics
    decreases |topics|
  {
    if topics != [] {
      var r := Subscriptions(topics);
      assert r[1..] == Subscriptions(topics[1..]);
      SubscribedTopicsOf(topics[1..]);
      assert topics == [topics[0]] + topics[1..];
    }
  }

  /** Without a MongoDB URI the process exits with code 1 and connects to
      nothing. */
  lemma NoUriNoConnection(c: Settings, o: StartOutcome)
    requires Consistent(c, o) && !UriSet(c)
    ensures StartupTrace(c, o) == [Exit(1)]
  {
  }

  /** MongoDB is connected first, Kafka second: a Kafka connection is always
      the second event and follows a MongoDB connection, and a MongoDB failure
      exits before Kafka is tried. */
  lemma MongoBeforeKafka(c: Settings, o: StartOutcome)
    requires Consistent(c, o)
    ensures forall j :: 0 <= j < |StartupTrace(c, o)| && StartupTrace(c, o)[j].KafkaConnect? ==>
      j == 1 && StartupTrace(c, o)[0].MongoConnect? && MongoConnected(o)
  {
    var t := StartupTrace(c, o);
    if MongoConnected(o) && o != Exited(KafkaFailed) {
      var rest := SubscribeTrace(c, o);
      assert t == [t[0], t[1]] + rest;
      assert forall i :: 0 <= i < |rest| ==> !rest[i].KafkaConnect?;
      forall j | 2 <= j < |t|
        ensures !t[j].KafkaConnect?
      {
        assert t[j] == rest[j - 2];
      }
    }
  }

  /** A startup that gets the consumer running subscribed to every topic of
      the list, in list order, and to nothing else. */
  lemma ConsumingSubscribedAll(c: Settings)
    requires UriSet(c)
    ensures SubscribedTopics(StartupTrace(c, Consuming)) == c.topics
  {
    var head := [MongoConnect(c.uri.value, c.database), KafkaConnect(c.broker, c.groupId)];
    var subs := Subscriptions(c.topics);
    ConsumingTrace(c);
    SubscribedTopicsAppend(head + subs, [RunConsumer]);
    SubscribedTopicsAppend(head, subs);
    NoSubscribes(head);
    NoSubscribes([RunConsumer]);
    SubscribedTopicsOf(c.topics);
  }

  lemma ConsumingTrace(c: Settings)
    requires UriSet(c)
    ensures StartupTrace(c, Consuming) ==
      [MongoConnect(c.uri.value, c.database), KafkaConnect(c.broker, c.groupId)] + Subscriptions(c.topics) + [RunConsumer]
  {
  }

  lemma {:induction false} NoSubscribes(events: seq<Event>)
    requires forall k :: 0 <= k < |events| ==> !events[k].Subscribe?
    ensures SubscribedTopics(events) == []
    decreases |events|
  {
    if events != [] {
      NoSubscribes(events[1..]);
    }
  }

  /** Every subscribe call of startup reads from the beginning. */
  lemma SubscribesFromBeginning(c: Settings, o: StartOutcome, k: nat)
    requires Consistent(c, o) && k < |StartupTrace(c, o)|
    requires StartupTrace(c, o)[k].Subscribe?
    ensures StartupTrace(c, o)[k].fromBeginning
  {
  }

  /** Startup ends the process only as its last event and only with code 1,
      and it does not end it when the consumer is running. */
  lemma ExitIsLast(c: Settings, o: StartOutcome, k: nat)
    requires Consistent(c, o) && k < |StartupTrace(c, o)|
    requires StartupTrace(c, o)[k].Exit?
    ensures k == |StartupTrace(c, o)| - 1 && StartupTrace(c, o)[k].code == 1
    ensures o.Exited?
  {
    var t := StartupTrace(c, o);
    if MongoConnected(o) {
      var kt := KafkaTrace(c, o);
      assert t[k] == kt[k - 1];
      if o != Exited(KafkaFailed) {
        var rest := SubscribeTrace(c, o);
        assert kt[k - 1] == rest[k - 2];
        SubscribeTraceExit(c, o, k - 2);
      }
    }
  }

  lemma SubscribeTraceExit(c: Settings, o: StartOutcome, k: nat)
    requires Consistent(c, o) && MongoConnected(o) && o != Exited(KafkaFailed)
    requires k < |SubscribeTrace(c, o)| && SubscribeTrace(c, o)[k].Exit?
    ensures k == |SubscribeTrace(c, o)| - 1 && SubscribeTrace(c, o)[k].code == 1 && o.Exited?
  {
    var r := SubscribeTrace(c, o);
    if o.Exited? && o.cause.SubscribeFailed? {
      var front := Subscriptions(c.topics[..o.cause.index + 1]);
      assert r == front + [Exit(1)];
    } else if o.Exited? && o.cause.RunFailed? {
      var front := Subscriptions(c.topics) + [RunConsumer];
      assert r == front + [Exit(1)];
    }
  }

  /** The consumer process: its record of requests made, the database handle
      set by the MongoDB connection, and that database's collections. */
  class Pipeline {
    var events: seq<Event>
    var db: Option<string>
    var store: Store

    constructor (store0: Store)
      ensures events == [] && db == None && store == store0
    {
      events := [];
      db := None;
      store := store0;
    }

    /** `connectMongo`: the client connects to `uri` and `db` becomes the
        database named `database`; on failure `db` stays unset. */
    method ConnectMongo(uri: string, database: string) returns (ok: bool)
      modifies this
      ensures events == old(events) + [MongoConnect(uri, database)]
      ensures db == (if ok then Some(database) else old(db))
      ensures store == old(store)
    {
      events := events + [MongoConnect(uri, database)];
      ok := *;
      if ok {
        db := Some(database);
      }
    }

    /** The subscribe loop: one call per topic, in order, each from the
        beginning; the first failure stops it and is reported by index. */
    method SubscribeAll(topics: seq<string>) returns (failedAt: Option<nat>)
      modifies this
      ensures failedAt.Some? ==> failedAt.value < |topics|
      ensures events == old(events) +
        Subscriptions(if failedAt.Some? then topics[..failedAt.value + 1] else topics)
      ensures db == old(db) && store == old(store)
    {
      var i := 0;
      while i < |topics|
        invariant 0 <= i <= |topics|
        invariant events == old(events) + Subscriptions(topics[..i])
        invariant db == old(db) && store == old(store)
      {
        assert Subscriptions(topics[..i + 1]) == Subscriptions(topics[..i]) + [Subscribe(topics[i], true)];
        events := events + [Subscribe(topics[i], true)];
        var ok := *;
        if !ok {
          return Some(i);
        }
        i := i + 1;
      }
      assert topics[..i] == topics;
      return None;
    }

    /** The URI check, then `startConsumer`: each failure exits with code 1,
        and the events are those of `StartupTrace`. */
    method Start(c: Settings) returns (outcome: StartOutcome)
      modifies this
      ensures Consistent(c, outcome)
      ensures events == old(events) + StartupTrace(c, outcome)
      ensures db == (if MongoConnected(outcome) then Some(c.database) else old(db))
      ensures store == old(store)
    {
      if !UriSet(c) {
        events := events + [Exit(1)];
        return Exited(UriMissing);
      }
      outcome := StartConsumer(c);
    }

    /** `startConsumer`, reached once the URI is known: `connectMongo`, whose
        failure exits with code 1, then the Kafka half. */
    method StartConsumer(c: Settings) returns (outcome: StartOutcome)
      requires UriSet(c)
      modifies this
      ensures Consistent(c, outcome) && outcome != Exited(UriMissing)
      ensures events == old(events) + StartupTrace(c, outcome)
      ensures db == (if MongoConnected(outcome) then Some(c.database) else old(db))
      ensures store == old(store)
    {
      var mongo := MongoConnect(c.uri.value, c.database);
      ghost var start := events;
      var mongoOk := ConnectMongo(c.uri.value, c.database);
      if mongoOk {
        outcome := RunKafkaConsumer(c);
        TraceAfterMongo(c, outcome);
        assert events == start + [mongo] + KafkaTrace(c, outcome);
        assert start + [mongo] + KafkaTrace(c, outcome) == start + ([mongo] + KafkaTrace(c, outcome));
      } else {
        events := events + [Exit(1)];
        outcome := Exited(MongoFailed);
        assert StartupTrace(c, outcome) == [mongo, Exit(1)];
        assert events == start + [mongo, Exit(1)];
      }
    }

    /** The Kafka half of `startConsumer`, once MongoDB is connected: connect,
        then subscribe and run; a failed connection exits with code 1. */
    method RunKafkaConsumer(c: Settings) returns (outcome: StartOutcome)
      requires UriSet(c)
      modifies this
      ensures Consistent(c, outcome) && MongoConnected(outcome)
      ensures events == old(events) + KafkaTrace(c, outcome)
      ensures db == old(db) && store == old(store)
    {
      var connect := KafkaConnect(c.broker, c.groupId);
      events := events + [connect];
      var kafkaOk := *;
      if !kafkaOk {
        events := events + [Exit(1)];
        return Exited(KafkaFailed);
      }
      ghost var connected := events;
      outcome := SubscribeAndRun(c);
      assert events == connected + SubscribeTrace(c, outcome);
    }

    /** The subscribe loop followed by `consumer.run`; a failure of either
        exits with code 1. */
    method SubscribeAndRun(c: Settings) returns (outcome: StartOutcome)
      requires UriSet(c)
      modifies this
      ensures Consistent(c, outcome) && MongoConnected(outcome) && outcome != Exited(KafkaFailed)
      ensures events == old(events) + SubscribeTrace(c, outcome)
      ensures db == old(db) && store == old(store)
    {
      var failedAt := SubscribeAll(c.topics);
      if failedAt.Some? {
        events := events + [Exit(1)];
        return Exited(SubscribeFailed(failedAt.value));
      }
      events := events + [RunConsumer];
      var runOk := *;
      if !runOk {
        events := events + [Exit(1)];
        return Exited(RunFailed);
      }
      return Consuming;
    }

    /** `eachMessage`: one insert attempt of the message's document into the
        collection named after its topic. Without a database handle the
        attempt throws before reaching MongoDB; either way a failure is
        caught, and the store then stays as it was. */
    method HandleMessage(d: Delivery, parse: string -> Option<Json>) returns (inserted: bool)
      modifies this
      ensures db.Some? ==> events == old(events) + [InsertOne(d.topic, DocumentOf(d, parse))]
      ensures db.None? ==> events == old(events) && !inserted
      ensures store == Ingest(old(store), [Handled(d, inserted)], parse)
      ensures db == old(db)
    {
      if db.None? {
        inserted := false;
      } else {
        events := events + [InsertOne(d.topic, DocumentOf(d, parse))];
        inserted := *;
        if inserted {
          store := Insert(store, d.topic, DocumentOf(d, parse));
        }
      }
      assert [Handled(d, inserted)][1..] == [];
    }

    /** The SIGINT handler: disconnect from Kafka, then exit with code 0; a
        failed disconnect does not reach the exit. */
    method Interrupt() returns (ok: bool)
      modifies this
      ensures events == old(events) + (if ok then [Disconnect, Exit(0)] else [Disconnect])
      ensures db == old(db) && store == old(store)
    {
      events := events + [Disconnect];
      ok := *;
      if ok {
        events := events + [Exit(0)];
      }
    }
  }

  /** One handled delivery stores at most its own document, in its own
      topic's collection. */
  lemma HandledOnce(store: Store, d: Delivery, inserted: bool, parse: string -> Option<Json>, name: string)
    ensures Collection(Ingest(store, [Handled(d, inserted)], parse), name) ==
      Collection(store, name) + (if inserted && name == d.topic then [DocumentOf(d, parse)] else [])
  {
    IngestCollection(store, [Handled(d, inserted)], name, parse);
    assert [Handled(d, inserted)][1..] == [];
  }
}
