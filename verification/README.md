# Topic manager of the Kafka REST proxy, modelled in Dafny

This project models the topic manager of the Kafka REST proxy
(`TopicManagerImpl`). That is the component that lists, fetches, creates,
deletes and resizes Kafka topics. It does this by checking that the cluster
exists, calling the Kafka admin client, and translating the admin client's
topic descriptions into the REST layer's `Topic`, `Partition` and
`PartitionReplica` entities.

Each `CompletableFuture` chain becomes a sequential pipeline of pure
functions. The cluster manager and the admin client are inputs whose answers
are given: a cluster lookup, a topic listing that may be `null`, and a
describe answer for each list of names. Every operation returns a
`Completion`. It holds the result the future completes with, either a value
or an `Error`, and the admin requests issued on the way, in order. This lets
the contracts state which calls are made, as well as what is returned.

Files:
- `wrappers.dfy`: `Option` and `Result`.
- `sequences.dfy`: `Project`, which maps a function over a sequence in order.
- `errors.dfy`: the failure kinds. These are cluster not found, a duplicate
  topic name, a description without partitions, and an upstream failure
  passed on unchanged.
- `kafka_admin.dfy`: the admin client's descriptors (`Node`,
  `TopicPartitionInfo`, `TopicDescription`, `TopicListing`), its requests
  (`NewTopic`, `NewPartitions`, the list, describe and create options) and its answers (`Admin`).
- `entities.dfy`: the REST entities.
- `entity_mapper.dfy`: `toTopic` / `toPartition` and the lemmas about them.
- `topic_manager.dfy`: the public operations and `describeTopics`.
- `topic_manager_properties.dfy`: lemmas that relate several operations.

The model follows the code exactly in these places:
- Leadership and ISR membership compare whole `Node` values. `Node.equals`
  compares id, host, port and rack, not the broker id alone.
- `listTopics` calls describe even for an empty listing. Only a `null`
  listing skips the describe call.
- `getTopic` tests for a `null` describe result. That test can never be true,
  because `describeTopics` always builds a list. It is not modelled
  separately from the empty case.
- A description with no partitions does not violate a precondition.
  `partitions().get(0)` throws, so the future fails. This is modelled as
  `NoPartitions`, and it fails the whole describe batch.

## Model

| member | source | states |
|---|---|---|
| EntityMapper.ToShort | kafka-rest/src/main/java/io/confluent/kafkarest/controllers/TopicManagerImpl.java:175 | the `(short)` cast lands in [-32768, 32767], agrees with its argument modulo 65536, and is the identity below 32768 |
| EntityMapper.ToReplicas | kafka-rest/src/main/java/io/confluent/kafkarest/controllers/TopicManagerImpl.java:187-197 | one replica entity per node, in node order; the i-th has the i-th node's id, the given cluster, topic and partition, is leader iff its node equals the leader, and is in sync iff its node is in the ISR set |
| EntityMapper.ToPartition | kafka-rest/src/main/java/io/confluent/kafkarest/controllers/TopicManagerImpl.java:184-199 | the partition keeps the descriptor's index and has one replica per descriptor replica, in order, each describing its node: leader iff equal to the leader (so none when leaderless), in sync iff in the ISR list |
| EntityMapper.ToPartitions | kafka-rest/src/main/java/io/confluent/kafkarest/controllers/TopicManagerImpl.java:172-174 | the topic's partition list has the descriptor's length and order, the i-th being the i-th descriptor mapped by `toPartition` |
| EntityMapper.ToTopic | kafka-rest/src/main/java/io/confluent/kafkarest/controllers/TopicManagerImpl.java:168-182 | fails exactly when there are no partitions; otherwise keeps cluster id, name and internal flag, maps the partitions in order, takes the replication factor from partition 0, gives the empty set for absent authorized operations and otherwise the image of the operations under the translation |
| EntityMapper.ToTopics | kafka-rest/src/main/java/io/confluent/kafkarest/controllers/TopicManagerImpl.java:161-165 | succeeds iff every description has a partition, then yields one topic per description in order; otherwise fails with the first description that has none |
| EntityMapper.LeaderFlagIsUnique | kafka-rest/src/main/java/io/confluent/kafkarest/controllers/TopicManagerImpl.java:188-195 | with distinct replica nodes, exactly one replica is flagged leader when the leader is among the replicas and none otherwise |
| EntityMapper.InSyncIgnoresIsrOrder | kafka-rest/src/main/java/io/confluent/kafkarest/controllers/TopicManagerImpl.java:186-196 | two ISR lists with the same members give the same partition: order and duplicates do not matter |
| EntityMapper.ReplicationFactorFromFirstPartition | kafka-rest/src/main/java/io/confluent/kafkarest/controllers/TopicManagerImpl.java:175 | partitions after index 0 never change the replication factor, which equals partition 0's replica count below 32768 |
| TopicManager.ResolveCluster | kafka-rest/src/main/java/io/confluent/kafkarest/controllers/TopicManagerImpl.java:67-69 | succeeds exactly when the lookup finds a cluster; a missing cluster is `ClusterNotFound` for that id, a lookup failure is passed on |
| TopicManager.ListedNames | kafka-rest/src/main/java/io/confluent/kafkarest/controllers/TopicManagerImpl.java:79 | the names of the listing, one per entry, in listing order |
| TopicManager.DescribeTopics | kafka-rest/src/main/java/io/confluent/kafkarest/controllers/TopicManagerImpl.java:152-166 | exactly one bulk describe call for all names; an admin failure is passed on, otherwise every description is mapped, and all topics carry the given cluster id |
| TopicManager.ListAndDescribe | kafka-rest/src/main/java/io/confluent/kafkarest/controllers/TopicManagerImpl.java:70-81 | the listing is requested first, with the default options that leave internal topics out; a listing failure is passed on; a null listing gives no topics and no describe call; a present listing gives the describe result for its names; describe is called iff the listing is present |
| TopicManager.ListTopics | kafka-rest/src/main/java/io/confluent/kafkarest/controllers/TopicManagerImpl.java:64-82 | a failed lookup is passed on and an unknown cluster fails with `ClusterNotFound`, both with no admin request; a resolved cluster runs the list-and-describe stage for the requested id, whose result and failures are returned unchanged; describe is called iff the cluster resolves and the listing is non-null |
| TopicManager.ListLocalTopics | kafka-rest/src/main/java/io/confluent/kafkarest/controllers/TopicManagerImpl.java:84-103 | a failing home-cluster lookup issues no request; otherwise the list pipeline runs for the home cluster's id, never asking for authorized operations |
| TopicManager.SelectTopic | kafka-rest/src/main/java/io/confluent/kafkarest/controllers/TopicManagerImpl.java:116-128 | zero topics is absent, a present result is the only topic there is, and more than one is a `MoreThanOneTopic` failure, never a pick |
| TopicManager.DescribeAndSelect | kafka-rest/src/main/java/io/confluent/kafkarest/controllers/TopicManagerImpl.java:113-128 | one describe call for the single name; a describe failure is passed on, a describe success goes through the selection |
| TopicManager.GetTopic | kafka-rest/src/main/java/io/confluent/kafkarest/controllers/TopicManagerImpl.java:105-129 | a failed lookup is passed on and an unknown cluster fails with `ClusterNotFound`, both with no admin request; otherwise describe-and-select for that name; a found topic carries the requested cluster id |
| TopicManager.GetLocalTopic | kafka-rest/src/main/java/io/confluent/kafkarest/controllers/TopicManagerImpl.java:131-150 | a failing home-cluster lookup issues no request; otherwise describe-and-select on the home cluster without authorized operations |
| TopicManager.OrNull | kafka-rest/src/main/java/io/confluent/kafkarest/controllers/TopicManagerImpl.java:231 | `orElse(null)` is null exactly for an empty optional and carries the value otherwise |
| TopicManager.NullableConfigs | kafka-rest/src/main/java/io/confluent/kafkarest/controllers/TopicManagerImpl.java:230-231 | the request config map has exactly the keys of the given configs; a value is null iff it was empty, otherwise it is the optional's value |
| TopicManager.NewTopicRequest | kafka-rest/src/main/java/io/confluent/kafkarest/controllers/TopicManagerImpl.java:233-238 | placement is explicit iff assignments are non-empty, then carrying exactly those assignments; otherwise uniform with the given count and factor; the configs are the null-normalised map |
| TopicManager.CreateTopic | kafka-rest/src/main/java/io/confluent/kafkarest/controllers/TopicManagerImpl.java:219-256 | a failed lookup is passed on and an unknown cluster fails with `ClusterNotFound`, both with no admin request; otherwise exactly one create call with the one request and the `validateOnly` option, succeeding iff the admin call does and passing its failure on |
| TopicManager.CreateTopicCommitted | kafka-rest/src/main/java/io/confluent/kafkarest/controllers/TopicManagerImpl.java:201-217 | every request it issues is a create request without the dry-run option |
| TopicManager.DeleteTopic | kafka-rest/src/main/java/io/confluent/kafkarest/controllers/TopicManagerImpl.java:258-269 | a failed lookup is passed on and an unknown cluster fails with `ClusterNotFound`, both with no admin request; otherwise exactly one delete call for exactly that one name, succeeding iff it does and passing its failure on |
| TopicManager.UpdateTopicPartitionsCount | kafka-rest/src/main/java/io/confluent/kafkarest/controllers/TopicManagerImpl.java:271-277 | no cluster lookup; exactly one partition-increase call with the default options, so not a dry run, whose map has the topic as its only key mapped to increase-to the given count; succeeds iff that call does and passes its failure on |
| TopicManagerProperties.ListTopicsOnePerListedName | kafka-rest/src/main/java/io/confluent/kafkarest/controllers/TopicManagerImpl.java:64-82 | if the admin client describes each listed topic once, in any order, with partitions 0..N-1, `listTopics` succeeds with one topic per listed name (equal as multisets), in the describe answer's order (the i-th topic is named as the i-th description), each of the requested cluster and with partitions indexed 0..N-1 |
| TopicManagerProperties.LocalListingIsListingOfHomeCluster | kafka-rest/src/main/java/io/confluent/kafkarest/controllers/TopicManagerImpl.java:84-103 | `listLocalTopics` equals `listTopics` for the home cluster's id without authorized operations |
| TopicManagerProperties.LocalTopicIsTopicOfHomeCluster | kafka-rest/src/main/java/io/confluent/kafkarest/controllers/TopicManagerImpl.java:131-150 | `getLocalTopic` equals `getTopic` for the home cluster's id without authorized operations |
| TopicManagerProperties.GetTopicSelectsUniqueDescription | kafka-rest/src/main/java/io/confluent/kafkarest/controllers/TopicManagerImpl.java:116-128 | after exactly one describe call, zero descriptions give absent, one gives that description's topic, and several give `MoreThanOneTopic` |
| TopicManagerProperties.ExplicitPlacementIgnoresCountAndFactor | kafka-rest/src/main/java/io/confluent/kafkarest/controllers/TopicManagerImpl.java:233-238 | with non-empty assignments, `createTopic` is the same whatever partition count and replication factor are passed |
| TopicManagerProperties.DeleteTopicConsultsOnlyDelete | kafka-rest/src/main/java/io/confluent/kafkarest/controllers/TopicManagerImpl.java:258-269 | two cluster managers and admin clients that agree on the lookup of the id and on the delete answer for the one name give the same completion: no listing or describe is consulted |
| TopicManagerProperties.UpdatePartitionsConsultsOnlyCreatePartitions | kafka-rest/src/main/java/io/confluent/kafkarest/controllers/TopicManagerImpl.java:271-277 | the issued request is the same for every admin client, and two admin clients that agree on the one-entry increase map under the default options give the same completion |
| TopicManagerProperties.NullableConfigsRoundTrip | kafka-rest/src/main/java/io/confluent/kafkarest/controllers/TopicManagerImpl.java:230-231 | null-normalising the configs and reading them back as optionals are mutually inverse, so no key or value is lost |

## Left out

- Future composition, threading and cancellation are modelled as a sequential pipeline. A future completing exceptionally is a `Failure`.
- The admin client's behaviour is left out: what `listTopics`, `describeTopics`, `createTopics`, `deleteTopics` and `createPartitions` do on the broker. This includes rejecting a non-increasing partition count, a dry run leaving no trace, and a deleted topic being absent afterwards. These are the cluster's behaviour. Here the admin's answers are arbitrary inputs.
- `ClusterManager` and `Entities.checkEntityExists` are not part of this model. They are a lookup answer (`Option<Cluster>`, or a failure) plus the `ClusterNotFound` failure.
- `Acl.Operation.fromAclOperation` is not part of this model. It is a function parameter, and `AclOperation` / `Operation` are opaque wrappers of a code and a name.
- The iteration order of the described-topics map (`topics.values()`) is not modelled. The admin's describe answer is a sequence in whatever order the map yields.
- `requireNonNull` checks, `null` arguments, the `Integer` unboxing in `NewPartitions.increaseTo`, error message texts and dependency injection are left out. Errors carry their kind and the topic or cluster id; an upstream failure carries the cluster manager's or admin client's reason unchanged.
- TopicManager.NewTopicRequest: the replication factor is an unbounded integer, not a Java `Short`. Nothing is computed from it, so only the range of values a caller could pass is wider.
- TopicManager.CreateTopic: the request is built before the cluster lookup in the code. Building it cannot fail in the model, so the order is not observable and is not modelled.
