/** The exported settings of the consumer's configuration module
    (src/consumer/config.js): the broker address, the consumer-group id and
    the `CONFIG` object. */
module Config {
  import opened Env

  const BrokerDefault := "localhost:29092"
  const UserDefault := "local"
  const GroupPrefix := "app-consumer-group-"

  /** `KAFKA_BROKER || KAFKA_HOST_BROKER || 'localhost:29092'`. */
  function KafkaBroker(env: Env): (r: string)
    ensures Truthy(env, "KAFKA_BROKER") ==> r == env["KAFKA_BROKER"]
    ensures !Truthy(env, "KAFKA_BROKER") && Truthy(env, "KAFKA_HOST_BROKER") ==>
      r == env["KAFKA_HOST_BROKER"]
    ensures !Truthy(env, "KAFKA_BROKER") && !Truthy(env, "KAFKA_HOST_BROKER") ==>
      r == BrokerDefault
  {
    FirstTruthy(env, ["KAFKA_BROKER", "KAFKA_HOST_BROKER"], BrokerDefault)
  }

  /** The identity variables consulted, in order, for the per-user group id. */
  const IdentityVars: seq<string> := ["CONSUMER_GROUP", "USER", "USERNAME", "COMPUTERNAME"]

  /** `CONSUMER_GROUP || USER || USERNAME || COMPUTERNAME || 'local'`: the first
      non-empty identity variable, never the empty string. */
  function UserId(env: Env): (r: string)
    ensures r != ""
    ensures Truthy(env, "CONSUMER_GROUP") ==> r == env["CONSUMER_GROUP"]
    ensures !Truthy(env, "CONSUMER_GROUP") && Truthy(env, "USER") ==> r == env["USER"]
    ensures NoneTruthy(env, ["CONSUMER_GROUP", "USER"]) && Truthy(env, "USERNAME") ==>
      r == env["USERNAME"]
    ensures NoneTruthy(env, ["CONSUMER_GROUP", "USER", "USERNAME"]) && Truthy(env, "COMPUTERNAME") ==>
      r == env["COMPUTERNAME"]
    ensures NoneTruthy(env, IdentityVars) ==> r == UserDefault
  {
    FirstTruthy(env, IdentityVars, UserDefault)
  }

  /** `` `app-consumer-group-${userId}` ``: the prefix followed by a non-empty
      user id. */
  function GroupId(env: Env): (r: string)
    ensures |r| > |GroupPrefix| && r[..|GroupPrefix|] == GroupPrefix
    ensures r[|GroupPrefix|..] == UserId(env)
  {
    GroupPrefix + UserId(env)
  }

  /** With none of the identity variables set to a non-empty value, the group id
      is the shared local one. */
  lemma GroupIdWithoutIdentity(env: Env)
    requires NoneTruthy(env, IdentityVars)
    ensures GroupId(env) == "app-consumer-group-local"
  {
  }

  datatype KafkaSettings = KafkaSettings(brokers: seq<string>, topics: map<string, string>)
  datatype Settings = Settings(kafka: KafkaSettings)

  /** The exported `CONFIG` object. */
  function MakeConfig(env: Env): (c: Settings)
    ensures c.kafka.brokers == [KafkaBroker(env)]
    ensures c.kafka.topics.Keys == {"payments", "sales"}
    ensures forall k :: k in c.kafka.topics ==> c.kafka.topics[k] == k
  {
    Settings(KafkaSettings([KafkaBroker(env)], map["payments" := "payments", "sales" := "sales"]))
  }
}
