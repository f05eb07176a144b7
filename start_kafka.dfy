/** The bootstrap script (startKafka.js): replace-then-create of the ZooKeeper
    and Kafka containers, provisioning of the required topics, and the order
    of the startup steps that ends by handing over to the consumer. */
module StartKafka {
  import opened Docker
  import KafkaAdmin

  const ZookeeperName := "zookeeper"
  const KafkaName := "kafka"
  const ZookeeperImage := "confluentinc/cp-zookeeper:7.4.1"
  const KafkaImage := "confluentinc/cp-kafka:7.4.1"

  /** The topics the script makes sure exist, in creation order. */
  const Topics: seq<string> := ["payments", "sales", "purchases", "customer", "products", "suppliers"]

  const ZookeeperPorts: seq<PortBinding> := [PortBinding("2181/tcp", "2181")]
  const ZookeeperEnv: seq<string> := ["ZOOKEEPER_CLIENT_PORT=2181", "ZOOKEEPER_TICK_TIME=2000"]
  const KafkaPorts: seq<PortBinding> := [PortBinding("9092/tcp", "9092"), PortBinding("29092/tcp", "29092")]
  const KafkaEnv: seq<string> := [
    "KAFKA_BROKER_ID=1",
    "KAFKA_ZOOKEEPER_CONNECT=zookeeper:2181",
    "KAFKA_LISTENERS=PLAINTEXT://0.0.0.0:9092,PLAINTEXT_HOST://0.0.0.0:29092",
    "KAFKA_ADVERTISED_LISTENERS=PLAINTEXT://kafka:9092,PLAINTEXT_HOST://localhost:29092",
    "KAFKA_LISTENER_SECURITY_PROTOCOL_MAP=PLAINTEXT:PLAINTEXT,PLAINTEXT_HOST:PLAINTEXT",
    "KAFKA_INTER_BROKER_LISTENER_NAME=PLAINTEXT",
    "KAFKA_OFFSETS_TOPIC_REPLICATION_FACTOR=1"]

  // ---------------------------------------------------------------------------
  // Container replace-then-create

  /** The runtime call at which `startContainer` gave up. */
  datatype Stage = Listing | Removing | Creating | Starting

  /** How `startContainer` ended. The script only logs a failure; it never
      passes it on to its caller. */
  datatype ContainerOutcome = Started | Failed(stage: Stage)

  ghost function Ids(cs: seq<Container>): set<nat> {
    set c | c in cs :: c.id
  }

  /** The listed containers before index `i` have ids other than the one at `i`. */
  lemma EarlierIdsDiffer(cs: seq<Container>, i: nat)
    requires WellFormed(cs) && i < |cs|
    ensures forall c :: c in cs[..i] ==> c.id != cs[i].id
    ensures forall c :: c in cs[i + 1..] ==> c.id != cs[i].id
  {
    forall c | c in cs[..i]
      ensures c.id != cs[i].id
    {
      var k :| 0 <= k < i && cs[k] == c;
      assert Compatible(cs[k], cs[i]);
    }
    forall c | c in cs[i + 1..]
      ensures c.id != cs[i].id
    {
      var k :| i + 1 <= k < |cs| && cs[k] == c;
      assert Compatible(cs[i], cs[k]);
    }
  }

  /** The containers kept before index `i` have ids other than the one at `i`. */
  lemma KeptIdsDiffer(cs: seq<Container>, i: nat, name: string)
    requires WellFormed(cs) && i < |cs|
    ensures forall c :: c in Without(cs[..i], name) ==> c.id != cs[i].id
  {
    EarlierIdsDiffer(cs, i);
    WithoutMembers(cs[..i], name);
  }

  /** Removing by id the container at index `i` from the loop's current list. */
  lemma RemoveAt(cs: seq<Container>, i: nat, name: string)
    requires WellFormed(cs) && i < |cs|
    requires forall c :: c in Without(cs[..i], name) ==> c.id != cs[i].id
    ensures RemoveId(Without(cs[..i], name) + cs[i..], cs[i].id) == Without(cs[..i], name) + cs[i + 1..]
  {
    var rest := cs[i + 1..];
    EarlierIdsDiffer(cs, i);
    assert cs[i..] == [cs[i]] + rest;
    RemoveIdPastPrefix(Without(cs[..i], name), cs[i..], cs[i].id);
    RemoveIdHead(cs[i], rest);
  }

  /** Adding a matching container to the scanned prefix adds it to the
      matches and leaves the kept containers alone. */
  lemma ScanMatching(cs: seq<Container>, i: nat, name: string)
    requires i < |cs| && Matches(cs[i], name)
    ensures Named(cs[..i + 1], name) == Named(cs[..i], name) + [cs[i]]
    ensures Without(cs[..i + 1], name) == Without(cs[..i], name)
  {
    assert cs[..i + 1] == cs[..i] + [cs[i]];
    NamedAppend(cs[..i], [cs[i]], name);
    WithoutAppend(cs[..i], [cs[i]], name);
  }

  /** One iteration of the removal loop: removing the matching container at
      index `i` by id leaves the matches up to `i + 1` removed. */
  lemma RemoveStep(cs: seq<Container>, i: nat, name: string)
    requires WellFormed(cs) && i < |cs| && Matches(cs[i], name)
    ensures RemoveId(Without(cs[..i], name) + cs[i..], cs[i].id) == Without(cs[..i + 1], name) + cs[i + 1..]
    ensures Ids(Named(cs[..i + 1], name)) == Ids(Named(cs[..i], name)) + {cs[i].id}
  {
    KeptIdsDiffer(cs, i, name);
    RemoveAt(cs, i, name);
    ScanMatching(cs, i, name);
    IdsAppend(Named(cs[..i], name), [cs[i]]);
  }

  lemma IdsAppend(a: seq<Container>, b: seq<Container>)
    ensures Ids(a + b) == Ids(a) + Ids(b)
  {
  }

  /** The matches found in a prefix of the listing are among all its matches. */
  lemma NamedPrefixIds(cs: seq<Container>, i: nat, name: string)
    requires i <= |cs|
    ensures Ids(Named(cs[..i], name)) <= Ids(Named(cs, name))
  {
    NamedMembers(cs[..i], name);
    NamedMembers(cs, name);
    forall c | c in Named(cs[..i], name)
      ensures c in Named(cs, name)
    {
      assert c in cs[..i];
    }
  }

  /** In a well-formed listing, a container that does not match `name` shares
      its id with none of the matches, so removing the matches keeps it. */
  lemma IdNotNamed(cs: seq<Container>, c: Container, name: string)
    requires WellFormed(cs) && c in cs && !Matches(c, name)
    ensures c.id !in Ids(Named(cs, name))
  {
    NamedMembers(cs, name);
    forall d | d in Named(cs, name)
      ensures d.id != c.id
    {
      var i :| 0 <= i < |cs| && cs[i] == c;
      var j :| 0 <= j < |cs| && cs[j] == d;
      if i < j {
        assert Compatible(cs[i], cs[j]);
      } else if j < i {
        assert Compatible(cs[j], cs[i]);
      }
    }
  }

  /** One iteration that skips a container not matching the name. */
  lemma KeepStep(cs: seq<Container>, i: nat, name: string)
    requires i < |cs| && !Matches(cs[i], name)
    ensures Without(cs[..i], name) + cs[i..] == Without(cs[..i + 1], name) + cs[i + 1..]
    ensures Ids(Named(cs[..i + 1], name)) == Ids(Named(cs[..i], name))
  {
    assert cs[..i + 1] == cs[..i] + [cs[i]];
    assert cs[i..] == [cs[i]] + cs[i + 1..];
    WithoutAppend(cs[..i], [cs[i]], name);
    NamedAppend(cs[..i], [cs[i]], name);
  }

  /** The removal loop of `startContainer`: walks the listing taken before it
      and force-removes, by id, each container listed under "/" + name. On a
      failed removal it stops; the containers of other names are untouched
      either way, and so is whether they run. */
  method RemoveMatching(docker: Runtime, existing: seq<Container>, name: string) returns (ok: bool)
    requires docker.Valid() && existing == docker.containers
    modifies docker
    ensures docker.Valid() && docker.nextId == old(docker.nextId)
    ensures Without(docker.containers, name) == Without(existing, name)
    ensures forall c :: c in docker.containers ==> c in existing
    ensures old(docker.running) - Ids(Named(existing, name)) <= docker.running <= old(docker.running)
    ensures Named(existing, name) == [] ==> ok
    ensures ok ==> docker.containers == Without(existing, name)
    ensures ok ==> docker.running == old(docker.running) - Ids(Named(existing, name))
  {
    var i := 0;
    while i < |existing|
      invariant 0 <= i <= |existing|
      invariant docker.Valid() && docker.nextId == old(docker.nextId)
      invariant docker.containers == Without(existing[..i], name) + existing[i..]
      invariant docker.running == old(docker.running) - Ids(Named(existing[..i], name))
    {
      ok := RemoveIfMatching(docker, existing, i, name, old(docker.running));
      if !ok {
        PartialRemoval(existing, i, name);
        NamedPrefixIds(existing, i, name);
        NamedMembers(existing, name);
        assert existing[i] in Named(existing, name);
        return;
      }
      i := i + 1;
    }
    assert existing[..i] == existing;
    PartialRemoval(existing, i, name);
    ok := true;
  }

  /** One turn of the removal loop: the container at position `i` of the
      listing is removed if it is listed under "/" + name. `before` is the
      set of running containers when the loop started. */
  method RemoveIfMatching(docker: Runtime, existing: seq<Container>, i: nat, name: string, ghost before: set<nat>)
    returns (ok: bool)
    requires i < |existing| && WellFormed(existing)
    requires docker.Valid() && docker.containers == Without(existing[..i], name) + existing[i..]
    requires docker.running == before - Ids(Named(existing[..i], name))
    modifies docker
    ensures docker.Valid() && docker.nextId == old(docker.nextId)
    ensures ok ==> docker.containers == Without(existing[..i + 1], name) + existing[i + 1..]
    ensures ok ==> docker.running == before - Ids(Named(existing[..i + 1], name))
    ensures !ok ==> docker.containers == old(docker.containers) && docker.running == old(docker.running)
    ensures !Matches(existing[i], name) ==> ok
  {
    if Matches(existing[i], name) {
      RemoveStep(existing, i, name);
      ok := docker.Remove(existing[i].id);
    } else {
      KeepStep(existing, i, name);
      ok := true;
    }
  }

  /** The loop's list at any point keeps every container of another name and
      holds nothing that was not listed. */
  lemma PartialRemoval(cs: seq<Container>, i: nat, name: string)
    requires i <= |cs|
    ensures Without(Without(cs[..i], name) + cs[i..], name) == Without(cs, name)
    ensures forall c :: c in Without(cs[..i], name) + cs[i..] ==> c in cs
  {
    WithoutAppend(Without(cs[..i], name), cs[i..], name);
    WithoutIdempotent(cs[..i], name);
    WithoutAppend(cs[..i], cs[i..], name);
    assert cs[..i] + cs[i..] == cs;
    WithoutMembers(cs[..i], name);
  }

  /** `startContainer(name, image, ports, env)`: force-removes every container
      listed under "/" + name, then creates one from the given descriptor and
      starts it. A failing runtime call ends the attempt; the failure is
      swallowed. Whatever happens, the containers of other names stay as they
      were and in their order, nothing new appears but the one container
      created here, every running container of another name keeps running,
      and the runtime never lists two containers under the name. On success
      the one container under the name is the new one, and it runs. */
  method StartContainer(docker: Runtime, name: string, image: string, ports: seq<PortBinding>, env: seq<string>)
    returns (outcome: ContainerOutcome)
    requires docker.Valid()
    modifies docker
    ensures docker.Valid()
    ensures Without(docker.containers, name) == Without(old(docker.containers), name)
    ensures forall c :: c in docker.containers ==>
      c in old(docker.containers) || c == Container(old(docker.nextId), ["/" + name], image, ports, env)
    ensures |Named(docker.containers, name)| <= 1
    ensures old(docker.running) - Ids(Named(old(docker.containers), name)) <= docker.running
    ensures docker.running <= old(docker.running) + {old(docker.nextId)}
    ensures outcome == Failed(Listing) ==>
      docker.containers == old(docker.containers) && docker.running == old(docker.running)
    ensures outcome == Failed(Removing) ==> docker.running <= old(docker.running)
    ensures Named(old(docker.containers), name) == [] ==> outcome != Failed(Removing)
    ensures outcome == Failed(Creating) ==>
      docker.containers == Without(old(docker.containers), name) &&
      docker.running == old(docker.running) - Ids(Named(old(docker.containers), name))
    ensures outcome in {Started, Failed(Starting)} ==>
      docker.containers ==
        Without(old(docker.containers), name) + [Container(old(docker.nextId), ["/" + name], image, ports, env)]
    ensures outcome == Failed(Starting) ==>
      docker.running == old(docker.running) - Ids(Named(old(docker.containers), name)) &&
      old(docker.nextId) !in docker.running
    ensures outcome == Started ==>
      docker.running == old(docker.running) - Ids(Named(old(docker.containers), name)) + {old(docker.nextId)}
    ensures outcome == Started ==>
      Named(docker.containers, name) == [Container(old(docker.nextId), ["/" + name], image, ports, env)] &&
      old(docker.nextId) in docker.running
  {
    var listed, existing := docker.ListAll();
    if !listed {
      AtMostOneNamed(docker.containers, name);
      return Failed(Listing);
    }
    var removed := RemoveMatching(docker, existing, name);
    AtMostOneNamed(docker.containers, name);
    if !removed {
      return Failed(Removing);
    }
    WithoutHasNoneNamed(existing, name);
    var created, id := docker.Create(name, image, ports, env);
    AtMostOneNamed(docker.containers, name);
    if !created {
      return Failed(Creating);
    }
    var made := Container(id, ["/" + name], image, ports, env);
    WithoutAppend(Without(existing, name), [made], name);
    WithoutIdempotent(existing, name);
    WithoutMembers(existing, name);
    NamedAppend(Without(existing, name), [made], name);
    assert Named([made], name) == [made] by {
      assert [made][1..] == [];
    }
    var started := docker.Start(id);
    if !started {
      return Failed(Starting);
    }
    return Started;
  }

  // ---------------------------------------------------------------------------
  // Topic provisioning

  /** The names of `required` that are not among `existing`, in the order of
      `required`: the topics the script asks the broker to create. */
  function Missing(required: seq<string>, existing: set<string>): (r: seq<string>)
    ensures |r| <= |required|
  {
    if required == [] then []
    else (if required[0] in existing then [] else [required[0]]) + Missing(required[1..], existing)
  }

  /** A name is asked for exactly when it is required and does not exist yet. */
  lemma {:induction false} MissingMembers(required: seq<string>, existing: set<string>)
    ensures forall t :: t in Missing(required, existing) <==> t in required && t !in existing
  {
    if required != [] {
      MissingMembers(required[1..], existing);
      assert required == [required[0]] + required[1..];
    }
  }

  lemma {:induction false} MissingAppend(a: seq<string>, t: string, existing: set<string>)
    ensures Missing(a + [t], existing) == Missing(a, existing) + (if t in existing then [] else [t])
  {
    if a == [] {
      assert a + [t] == [t];
    } else {
      var head := if a[0] in existing then [] else [a[0]];
      var tail := if t in existing then [] else [t];
      assert (a + [t])[0] == a[0] && (a + [t])[1..] == a[1..] + [t];
      assert Missing(a + [t], existing) == head + Missing(a[1..] + [t], existing);
      MissingAppend(a[1..], t, existing);
      assert head + (Missing(a[1..], existing) + tail) == (head + Missing(a[1..], existing)) + tail;
    }
  }

  /** Nothing is missing exactly when every required name already exists. */
  lemma MissingEmpty(required: seq<string>, existing: set<string>)
    ensures Missing(required, existing) == [] <==> forall t :: t in required ==> t in existing
  {
    MissingMembers(required, existing);
    var r := Missing(required, existing);
    if r != [] {
      assert r[0] in r;
    }
  }

  /** Once every required name exists, a further run asks for nothing. */
  lemma NothingMissingAfterProvisioning(required: seq<string>, existing: set<string>)
    ensures Missing(required, existing + Elements(required)) == []
  {
    MissingEmpty(required, existing + Elements(required));
  }

  /** No name occurs twice. */
  predicate Distinct(names: seq<string>) {
    forall i, j :: 0 <= i < j < |names| ==> names[i] != names[j]
  }

  /** A list without repeats leads to a list of creations without repeats: no
      topic is asked for twice. */
  lemma {:induction false} MissingDistinct(required: seq<string>, existing: set<string>)
    requires Distinct(required)
    ensures Distinct(Missing(required, existing))
  {
    if required != [] {
      var tail := required[1..];
      forall i, j | 0 <= i < j < |tail|
        ensures tail[i] != tail[j]
      {
        assert tail[i] == required[i + 1] && tail[j] == required[j + 1];
      }
      MissingDistinct(tail, existing);
      MissingMembers(tail, existing);
      var rest := Missing(tail, existing);
      forall k | 0 <= k < |tail|
        ensures tail[k] != required[0]
      {
        assert tail[k] == required[k + 1];
      }
      assert required[0] !in tail;
      assert required[0] !in rest;
      if required[0] !in existing {
        var r := [required[0]] + rest;
        assert r == Missing(required, existing);
        forall i, j | 0 <= i < j < |r|
          ensures r[i] != r[j]
        {
          assert r[j] == rest[j - 1] && rest[j - 1] in rest;
          if i > 0 {
            assert r[i] == rest[i - 1] && rest[i - 1] != rest[j - 1];
          }
        }
      } else {
        assert rest == Missing(required, existing);
      }
    }
  }

  /** One `createTopics` request per name, each for that name alone. */
  function OneEach(names: seq<string>): (r: seq<seq<string>>)
    ensures |r| == |names| && forall k :: 0 <= k < |r| ==> r[k] == [names[k]]
  {
    seq(|names|, k requires 0 <= k < |names| => [names[k]])
  }

  lemma OneEachAppend(names: seq<string>, t: string)
    ensures OneEach(names + [t]) == OneEach(names) + [[t]]
  {
  }

  /** Requests for a prefix of the names are a prefix of the requests. */
  lemma OneEachPrefix(a: seq<string>, b: seq<string>)
    requires a <= b
    ensures OneEach(a) <= OneEach(b)
  {
  }

  /** The set of names in a list. */
  function Elements(names: seq<string>): set<string> {
    set t | t in names
  }

  lemma ElementsAppend(names: seq<string>, t: string)
    ensures Elements(names + [t]) == Elements(names) + {t}
  {
  }

  lemma ElementsPrefix(names: seq<string>, n: nat)
    requires n <= |names|
    ensures Elements(names[..n]) <= Elements(names)
  {
    forall t | t in names[..n]
      ensures t in names
    {
    }
  }

  /** The loop of `createTopics`: for each name of `required` in order, a
      create request unless the listing taken before the loop holds it. The
      first failing request ends the loop. */
  method CreateEachMissing(kafka: KafkaAdmin.Cluster, required: seq<string>, existing: set<string>)
    returns (ok: bool)
    requires existing == kafka.topics
    modifies kafka
    ensures kafka.connected == old(kafka.connected)
    ensures existing <= kafka.topics <= existing + Elements(required)
    ensures old(kafka.requests) <= kafka.requests <= old(kafka.requests) + OneEach(Missing(required, existing))
    ensures ok ==> kafka.topics == existing + Elements(required)
    ensures ok ==> kafka.requests == old(kafka.requests) + OneEach(Missing(required, existing))
    ensures Missing(required, existing) == [] ==> ok
  {
    var i := 0;
    while i < |required|
      invariant 0 <= i <= |required|
      invariant kafka.connected == old(kafka.connected)
      invariant kafka.requests == old(kafka.requests) + OneEach(Missing(required[..i], existing))
      invariant kafka.topics == existing + Elements(required[..i])
    {
      ok := CreateIfMissing(kafka, required, i, existing, old(kafka.requests));
      if !ok {
        StoppedWithinPlan(required, i, existing);
        PrefixAfter(old(kafka.requests), OneEach(Missing(required[..i + 1], existing)),
          OneEach(Missing(required, existing)));
        return;
      }
      i := i + 1;
    }
    assert required[..i] == required;
    ok := true;
  }

  /** A create loop stopped by a failing request at `required[i]`: what it
      requested and created is within the full plan, and that plan was not
      empty. */
  lemma StoppedWithinPlan(required: seq<string>, i: nat, existing: set<string>)
    requires i < |required| && required[i] !in existing
    ensures OneEach(Missing(required[..i + 1], existing)) <= OneEach(Missing(required, existing))
    ensures Elements(required[..i + 1]) <= Elements(required)
    ensures Missing(required, existing) != []
  {
    RequestsWithinPlan(required, i + 1, existing);
    ElementsPrefix(required, i + 1);
    MissingEmpty(required, existing);
    assert required[i] in required;
  }

  /** One turn of the create loop: `required[i]` is asked for if it was not
      listed. `before` is the request log when the loop started. */
  method CreateIfMissing(kafka: KafkaAdmin.Cluster, required: seq<string>, i: nat, existing: set<string>,
                         ghost before: seq<seq<string>>)
    returns (ok: bool)
    requires i < |required|
    requires kafka.requests == before + OneEach(Missing(required[..i], existing))
    requires kafka.topics == existing + Elements(required[..i])
    modifies kafka
    ensures kafka.connected == old(kafka.connected)
    ensures kafka.requests == before + OneEach(Missing(required[..i + 1], existing))
    ensures ok ==> kafka.topics == existing + Elements(required[..i + 1])
    ensures !ok ==> kafka.topics == old(kafka.topics)
    ensures required[i] in existing ==> ok
  {
    var topic := required[i];
    MissingAppend(required[..i], topic, existing);
    assert required[..i + 1] == required[..i] + [topic];
    ElementsAppend(required[..i], topic);
    if topic in existing {
      ok := true;
    } else {
      OneEachAppend(Missing(required[..i], existing), topic);
      ok := kafka.CreateTopics([topic]);
    }
  }

  /** `createTopics()`: connects the admin client, lists the existing topics,
      asks for each topic of `Topics` not listed to be created, one request
      per topic in list order, and disconnects. Any failing call aborts the
      whole step with an error that the caller sees. On success the broker
      holds every topic it held before and every topic of `Topics`, and the
      requests issued are exactly the missing topics; a failed run issued a
      prefix of those requests and removed nothing. */
  method CreateTopics(kafka: KafkaAdmin.Cluster) returns (ok: bool)
    modifies kafka
    ensures old(kafka.topics) <= kafka.topics <= old(kafka.topics) + Elements(Topics)
    ensures old(kafka.requests) <= kafka.requests <=
      old(kafka.requests) + OneEach(Missing(Topics, old(kafka.topics)))
    ensures ok ==> kafka.topics == old(kafka.topics) + Elements(Topics)
    ensures ok ==> kafka.requests == old(kafka.requests) + OneEach(Missing(Topics, old(kafka.topics)))
    ensures ok ==> !kafka.connected
    ensures Elements(Topics) <= old(kafka.topics) ==>
      kafka.topics == old(kafka.topics) && kafka.requests == old(kafka.requests)
  {
    MissingEmpty(Topics, kafka.topics);
    ok := kafka.Connect();
    if !ok {
      return;
    }
    var existing;
    ok, existing := kafka.ListTopics();
    if !ok {
      return;
    }
    ok := CreateEachMissing(kafka, Topics, existing);
    if !ok {
      return;
    }
    ok := kafka.Disconnect();
  }

  lemma PrefixAfter(front: seq<seq<string>>, a: seq<seq<string>>, b: seq<seq<string>>)
    requires a <= b
    ensures front <= front + a <= front + b
  {
    assert (front + b)[..|front + a|] == front + b[..|a|];
  }

  /** The requests issued for the first `n` topics are a prefix of those for all
      of them. */
  lemma RequestsWithinPlan(required: seq<string>, n: nat, existing: set<string>)
    requires n <= |required|
    ensures OneEach(Missing(required[..n], existing)) <= OneEach(Missing(required, existing))
  {
    MissingPrefix(required, n, existing);
    OneEachPrefix(Missing(required[..n], existing), Missing(required, existing));
  }

  lemma {:induction false} MissingPrefix(required: seq<string>, n: nat, existing: set<string>)
    requires n <= |required|
    ensures Missing(required[..n], existing) <= Missing(required, existing)
    decreases |required| - n
  {
    if n < |required| {
      MissingPrefix(required, n + 1, existing);
      assert required[..n + 1] == required[..n] + [required[n]];
      MissingAppend(required[..n], required[n], existing);
    } else {
      assert required[..n] == required;
    }
  }

  // ---------------------------------------------------------------------------
  // Startup order

  /** A step of `main`, with what came of it. */
  datatype Step =
    | Launch(name: string, outcome: ContainerOutcome)
    | Wait(ms: nat)
    | Provision(ok: bool)
    | ImportConsumer

  /** The script's progress: each step of `main` appends itself when it
      finishes, so the log's order is the order in which the steps ran. */
  class Timeline {
    var steps: seq<Step>

    constructor ()
      ensures steps == []
    {
      steps := [];
    }
  }

  /** The fixed order of `main`: ZooKeeper, 10 s, Kafka, 20 s, topics, and the
      consumer only when the topics step did not fail. */
  predicate BootOrder(steps: seq<Step>) {
    && |steps| >= 5
    && steps[0].Launch? && steps[0].name == ZookeeperName
    && steps[1] == Wait(10000)
    && steps[2].Launch? && steps[2].name == KafkaName
    && steps[3] == Wait(20000)
    && steps[4].Provision?
    && steps[5..] == (if steps[4].ok then [ImportConsumer] else [])
  }

  /** The ZooKeeper container as `startZookeeper` creates it. */
  function ZookeeperContainer(id: nat): Container {
    Container(id, ["/" + ZookeeperName], ZookeeperImage, ZookeeperPorts, ZookeeperEnv)
  }

  /** The Kafka container as `startKafka` creates it. */
  function KafkaContainer(id: nat): Container {
    Container(id, ["/" + KafkaName], KafkaImage, KafkaPorts, KafkaEnv)
  }

  /** `startZookeeper()`: `startContainer` with the ZooKeeper descriptor (client
      port 2181 published on the host). */
  method StartZookeeper(docker: Runtime, timeline: Timeline) returns (outcome: ContainerOutcome)
    requires docker.Valid()
    modifies docker, timeline
    ensures docker.Valid()
    ensures timeline.steps == old(timeline.steps) + [Launch(ZookeeperName, outcome)]
    ensures Without(docker.containers, ZookeeperName) == Without(old(docker.containers), ZookeeperName)
    ensures |Named(docker.containers, ZookeeperName)| <= 1
    ensures old(docker.running) - Ids(Named(old(docker.containers), ZookeeperName)) <= docker.running
    ensures outcome == Started ==>
      Named(docker.containers, ZookeeperName) == [ZookeeperContainer(old(docker.nextId))] &&
      old(docker.nextId) in docker.running
  {
    outcome := StartContainer(docker, ZookeeperName, ZookeeperImage, ZookeeperPorts, ZookeeperEnv);
    timeline.steps := timeline.steps + [Launch(ZookeeperName, outcome)];
  }

  /** `startKafka()`: `startContainer` with the Kafka descriptor (ports 9092
      and 29092 published, the internal and host listeners, ZooKeeper at
      zookeeper:2181). */
  method StartKafkaBroker(docker: Runtime, timeline: Timeline) returns (outcome: ContainerOutcome)
    requires docker.Valid()
    modifies docker, timeline
    ensures docker.Valid()
    ensures timeline.steps == old(timeline.steps) + [Launch(KafkaName, outcome)]
    ensures Without(docker.containers, KafkaName) == Without(old(docker.containers), KafkaName)
    ensures |Named(docker.containers, KafkaName)| <= 1
    ensures old(docker.running) - Ids(Named(old(docker.containers), KafkaName)) <= docker.running
    ensures outcome == Started ==>
      Named(docker.containers, KafkaName) == [KafkaContainer(old(docker.nextId))] &&
      old(docker.nextId) in docker.running
  {
    outcome := StartContainer(docker, KafkaName, KafkaImage, KafkaPorts, KafkaEnv);
    timeline.steps := timeline.steps + [Launch(KafkaName, outcome)];
  }

  /** `wait(ms)`: a pause of `ms` milliseconds; only its place in the order is
      kept. */
  method WaitFor(timeline: Timeline, ms: nat)
    modifies timeline
    ensures timeline.steps == old(timeline.steps) + [Wait(ms)]
  {
    timeline.steps := timeline.steps + [Wait(ms)];
  }

  /** `createTopics()` as a step of `main`: it ends either normally or by
      throwing, which `main` passes on. */
  method ProvisionTopics(kafka: KafkaAdmin.Cluster, timeline: Timeline) returns (ok: bool)
    modifies kafka, timeline
    ensures timeline.steps == old(timeline.steps) + [Provision(ok)]
    ensures ok ==> kafka.topics == old(kafka.topics) + Elements(Topics)
  {
    ok := CreateTopics(kafka);
    timeline.steps := timeline.steps + [Provision(ok)];
  }

  /** `await import("./src/consumer/consumer.js")`: hands over to the consumer. */
  method LoadConsumer(timeline: Timeline)
    modifies timeline
    ensures timeline.steps == old(timeline.steps) + [ImportConsumer]
  {
    timeline.steps := timeline.steps + [ImportConsumer];
  }

  /** `main()`: starts ZooKeeper, waits, starts Kafka, waits, provisions the
      topics and then imports the consumer. A container that failed to start
      does not stop the sequence; a failed topic step does, before the
      consumer. The ZooKeeper container created first is not touched by the
      Kafka step and keeps running, and neither name is ever held by two
      containers. `run` is what the steps appended to the log. */
  method Orchestrate(docker: Runtime, kafka: KafkaAdmin.Cluster, timeline: Timeline) returns (run: seq<Step>)
    requires docker.Valid()
    modifies docker, kafka, timeline
    ensures docker.Valid()
    ensures timeline.steps == old(timeline.steps) + run
    ensures BootOrder(run)
    ensures ImportConsumer in run ==> Elements(Topics) <= kafka.topics
    ensures |Named(docker.containers, ZookeeperName)| <= 1 && |Named(docker.containers, KafkaName)| <= 1
    ensures run[0].outcome == Started ==>
      ZookeeperContainer(old(docker.nextId)) in docker.containers && old(docker.nextId) in docker.running
  {
    var start := |timeline.steps|;
    var zk, kf := LaunchContainers(docker, timeline);
    WaitFor(timeline, 20000);
    var provisioned := ProvisionTopics(kafka, timeline);
    if provisioned {
      LoadConsumer(timeline);
    }
    run := timeline.steps[start..];
  }

  /** The container half of `main`: ZooKeeper, the 10 s wait, then Kafka. A
      ZooKeeper container that started is still listed and running after the
      Kafka step. */
  method LaunchContainers(docker: Runtime, timeline: Timeline) returns (zk: ContainerOutcome, kf: ContainerOutcome)
    requires docker.Valid()
    modifies docker, timeline
    ensures docker.Valid()
    ensures timeline.steps ==
      old(timeline.steps) + [Launch(ZookeeperName, zk), Wait(10000), Launch(KafkaName, kf)]
    ensures |Named(docker.containers, ZookeeperName)| <= 1 && |Named(docker.containers, KafkaName)| <= 1
    ensures zk == Started ==>
      ZookeeperContainer(old(docker.nextId)) in docker.containers && old(docker.nextId) in docker.running
  {
    zk := StartZookeeper(docker, timeline);
    WaitFor(timeline, 10000);
    var before, runningBefore := docker.containers, docker.running;
    kf := StartKafkaBroker(docker, timeline);
    if zk == Started {
      var c := ZookeeperContainer(old(docker.nextId));
      assert Named(before, ZookeeperName)[0] == c;
      NamedMembers(before, ZookeeperName);
      ZookeeperSurvives(before, docker.containers, c);
      IdNotNamed(before, c, KafkaName);
    }
    AtMostOneNamed(docker.containers, ZookeeperName);
  }

  /** A container listed only as `/zookeeper` outlives the Kafka step. */
  lemma ZookeeperSurvives(before: seq<Container>, after: seq<Container>, c: Container)
    requires Without(after, KafkaName) == Without(before, KafkaName)
    requires c in before
    requires c.names == ["/" + ZookeeperName]
    ensures !Matches(c, KafkaName) && c in after
  {
    assert ("/" + KafkaName)[1] != ("/" + ZookeeperName)[1];
    WithoutMembers(before, KafkaName);
    WithoutMembers(after, KafkaName);
  }
}
