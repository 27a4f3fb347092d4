/** The Kafka admin client as the topic manager sees it: the descriptors the
    cluster returns, the requests sent to it, and the client itself, whose
    answers are inputs of the model. */
module KafkaAdmin {
  import opened Wrappers

  /** A broker as the cluster reports it. Kafka's `Node.equals` compares all
      four fields, which is what datatype equality does here. */
  datatype Node = Node(id: int, host: string, port: int, rack: Option<string>)

  /** Kafka's access-control operation, identified by its wire code. */
  datatype AclOperation = AclOperation(code: int)

  /** One partition of a described topic: its index, its leader (absent while
      the partition is leaderless), its replicas in preference order and its
      in-sync replicas. */
  datatype TopicPartitionInfo = TopicPartitionInfo(
    partition: int,
    leader: Option<Node>,
    replicas: seq<Node>,
    isr: seq<Node>)

  /** A described topic; `authorizedOperations` is absent unless it was requested. */
  datatype TopicDescription = TopicDescription(
    name: string,
    isInternal: bool,
    partitions: seq<TopicPartitionInfo>,
    authorizedOperations: Option<set<AclOperation>>)

  /** One entry of a topic listing. */
  datatype TopicListing = TopicListing(name: string, isInternal: bool)

  /** A Java `String` that may be `null`; in a topic config `null` means "use the default". */
  datatype NullableString = Null | NonNull(value: string)

  /** How the brokers of a new topic are chosen: by the cluster from a
      partition count and replication factor (either may be left to the
      broker default), or explicitly per partition index. The factor arrives
      as a Java `Short`, so callers only ever supply values in
      [-32768, 32767]; nothing here computes with it. */
  datatype Placement =
    | Uniform(numPartitions: Option<int>, replicationFactor: Option<int>)
    | Explicit(replicasAssignments: map<int, seq<int>>)

  /** Kafka's `NewTopic` with its configs attached. */
  datatype NewTopic = NewTopic(name: string, placement: Placement, configs: map<string, NullableString>)

  /** Kafka's `NewPartitions.increaseTo(totalCount)`, with no explicit assignment. */
  datatype NewPartitions = IncreaseTo(totalCount: int)

  /** Kafka's `ListTopicsOptions`; the client's default leaves `listInternal`
      false, so internal topics are not listed. */
  datatype ListTopicsOptions = ListTopicsOptions(listInternal: bool)

  datatype DescribeTopicsOptions = DescribeTopicsOptions(includeAuthorizedOperations: bool)

  datatype CreateTopicsOptions = CreateTopicsOptions(validateOnly: bool)

  /** Kafka's `CreatePartitionsOptions`; the client's default leaves
      `validateOnly` false, so the increase is applied, not only validated. */
  datatype CreatePartitionsOptions = CreatePartitionsOptions(validateOnly: bool)

  /** A call made on the admin client. */
  datatype AdminRequest =
    | ListTopicsRequest(listOptions: ListTopicsOptions)
    | DescribeTopicsRequest(topicNames: seq<string>, describeOptions: DescribeTopicsOptions)
    | CreateTopicsRequest(newTopics: seq<NewTopic>, createOptions: CreateTopicsOptions)
    | DeleteTopicsRequest(deleteNames: seq<string>)
    | CreatePartitionsRequest(newPartitions: map<string, NewPartitions>, partitionsOptions: CreatePartitionsOptions)

  /** The admin client's answers. `listTopics` may succeed with `None`, which
      is how the client's `null` listing is represented. `describeTopics`
      returns the values of the described-topics map in the order the map
      iterates them. Failures carry the client's reason. */
  datatype Admin = Admin(
    listTopics: ListTopicsOptions -> Result<Option<seq<TopicListing>>, string>,
    describeTopics: (seq<string>, DescribeTopicsOptions) -> Result<seq<TopicDescription>, string>,
    createTopics: (seq<NewTopic>, CreateTopicsOptions) -> Result<(), string>,
    deleteTopics: seq<string> -> Result<(), string>,
    createPartitions: (map<string, NewPartitions>, CreatePartitionsOptions) -> Result<(), string>)
}
