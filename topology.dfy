/** How the lists of the three programs relate: the topics the launcher
    provisions, the topics the consumer subscribes to by default, and the
    topics of the shared configuration. */
module Topology {
  import StartKafka
  import Consumer
  import Config
  import Env

  /** Every topic the launcher creates is one the consumer reads by default. */
  lemma ProvisionedAreConsumed()
    ensures forall t :: t in StartKafka.Topics ==> t in Consumer.DefaultTopics
  {
  }

  /** The reverse fails for exactly three topics: the consumer subscribes by
      default to `age_analysis`, `sales_transactions` and `representative`,
      which the launcher never creates. */
  lemma ConsumedButNotProvisioned()
    ensures (set t | t in Consumer.DefaultTopics && t !in StartKafka.Topics) ==
      {"age_analysis", "sales_transactions", "representative"}
  {
  }

  /** The topics named in the shared configuration are all provisioned. */
  lemma ConfigTopicsProvisioned(env: Env.Env)
    ensures forall k :: k in Config.MakeConfig(env).kafka.topics ==>
      Config.MakeConfig(env).kafka.topics[k] in StartKafka.Topics
  {
  }
}
