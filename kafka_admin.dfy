/** The broker's administrative interface as the bootstrap script uses it
    through kafkajs: connect, list the topic names, create topics, disconnect.
    The state is the set of topic names, whether the admin client is
    connected, and the log of create requests issued. Every call may fail; a
    failing call changes no topic. */
module KafkaAdmin {

  class Cluster {
    var topics: set<string>
    var connected: bool
    /** Each `admin.createTopics({topics: [...]})` call, with the names it asked for. */
    var requests: seq<seq<string>>

    constructor (initial: set<string>)
      ensures topics == initial && !connected && requests == []
    {
      topics, connected, requests := initial, false, [];
    }

    /** `admin.connect()`. */
    method Connect() returns (ok: bool)
      modifies this
      ensures topics == old(topics) && requests == old(requests)
      ensures connected == (old(connected) || ok)
    {
      ok := *;
      connected := connected || ok;
    }

    /** `admin.listTopics()`: the names of the existing topics. The script
        only asks the returned array whether it includes a name, so the model
        returns the names as a set. */
    method ListTopics() returns (ok: bool, names: set<string>)
      ensures ok ==> names == topics
    {
      ok := *;
      names := if ok then topics else {};
    }

    /** `admin.createTopics({topics: names})` with default partitions and
        replication. The request is issued whether or not it succeeds. */
    method CreateTopics(names: seq<string>) returns (ok: bool)
      modifies this
      ensures connected == old(connected)
      ensures requests == old(requests) + [names]
      ensures topics == if ok then old(topics) + set t | t in names else old(topics)
    {
      ok := *;
      requests := requests + [names];
      if ok {
        topics := topics + set t | t in names;
      }
    }

    /** `admin.disconnect()`. */
    method Disconnect() returns (ok: bool)
      modifies this
      ensures topics == old(topics) && requests == old(requests)
      ensures connected == (old(connected) && !ok)
    {
      ok := *;
      connected := connected && !ok;
    }
  }
}
