/** Properties that relate several calls of the topic manager's operations,
    or relate an operation to an independent description of its result. */
module TopicManagerProperties {
  import opened Wrappers
  import opened KafkaAdmin
  import opened Entities
  import opened Errors
  import opened EntityMapper
  import opened TopicManager
  import opened Sequences

  /** A description whose partitions are indexed 0..N-1 in order, N > 0. */
  predicate ContiguousPartitions(d: TopicDescription)
  {
    && |d.partitions| > 0
    && forall j :: 0 <= j < |d.partitions| ==> d.partitions[j].partition == j
  }

  /** A topic entity whose partitions are indexed 0..N-1 in order. */
  predicate IndexedPartitions(t: Topic)
  {
    forall j :: 0 <= j < |t.partitions| ==> t.partitions[j].partitionId == j
  }

  /** The names of described topics, in the order the describe answer gives them. */
  function DescriptionNames(descriptions: seq<TopicDescription>): seq<string>
  {
    Project(descriptions, (d: TopicDescription) => d.name)
  }

  /** The names of topic entities, in order. */
  function TopicNames(topics: seq<Topic>): seq<string>
  {
    Project(topics, (t: Topic) => t.name)
  }

  /** The admin client describes exactly the listed topics, one well-formed
      description per listed name, in any order (the described-topics map
      decides it). */
  predicate DescribesListing(listings: seq<TopicListing>, descriptions: seq<TopicDescription>)
  {
    && multiset(DescriptionNames(descriptions)) == multiset(ListedNames(listings))
    && forall i :: 0 <= i < |descriptions| ==> ContiguousPartitions(descriptions[i])
  }

  /** When the cluster exists and the admin client describes every listed
      topic with contiguous partitions, `listTopics` returns exactly one topic
      per listed name, in the describe answer's order, each of the requested
      cluster and with partitions 0..N-1. */
  lemma ListTopicsOnePerListedName(
    clusters: ClusterManager, admin: Admin, fromAclOperation: AclOperation -> Operation,
    clusterId: string, includeAuthorizedOperations: bool,
    listings: seq<TopicListing>, descriptions: seq<TopicDescription>)
    requires ResolveCluster(clusters, clusterId).Success?
    requires admin.listTopics(DefaultListOptions) == Success(Some(listings))
    requires admin.describeTopics(ListedNames(listings), DescribeTopicsOptions(includeAuthorizedOperations)) == Success(descriptions)
    requires DescribesListing(listings, descriptions)
    ensures var c := ListTopics(clusters, admin, fromAclOperation, clusterId, includeAuthorizedOperations);
      && c.result.Success?
      && TopicNames(c.result.value) == DescriptionNames(descriptions)
      && multiset(TopicNames(c.result.value)) == multiset(ListedNames(listings))
      && forall i :: 0 <= i < |c.result.value| ==>
           c.result.value[i].clusterId == clusterId && IndexedPartitions(c.result.value[i])
  {
    var c := ListTopics(clusters, admin, fromAclOperation, clusterId, includeAuthorizedOperations);
    assert c.result.Success?;
    assert TopicNames(c.result.value) == DescriptionNames(descriptions);
  }

  /** `listLocalTopics` is `listTopics` on the home cluster's id without
      authorized operations, whenever that id resolves to the home cluster. */
  lemma LocalListingIsListingOfHomeCluster(
    clusters: ClusterManager, admin: Admin, fromAclOperation: AclOperation -> Operation, home: Cluster)
    requires clusters.getLocalCluster == Success(home)
    requires clusters.getCluster(home.clusterId) == Success(Some(home))
    ensures ListLocalTopics(clusters, admin, fromAclOperation)
         == ListTopics(clusters, admin, fromAclOperation, home.clusterId, false)
  {
  }

  /** `getLocalTopic` is `getTopic` on the home cluster's id without
      authorized operations, whenever that id resolves to the home cluster. */
  lemma LocalTopicIsTopicOfHomeCluster(
    clusters: ClusterManager, admin: Admin, fromAclOperation: AclOperation -> Operation,
    home: Cluster, topicName: string)
    requires clusters.getLocalCluster == Success(home)
    requires clusters.getCluster(home.clusterId) == Success(Some(home))
    ensures GetLocalTopic(clusters, admin, fromAclOperation, topicName)
         == GetTopic(clusters, admin, fromAclOperation, home.clusterId, topicName, false)
  {
  }

  /** `getTopic` over a describe answer of zero, one or several mappable
      descriptions: absent, the one mapped topic, or the duplicate-name error;
      in every case after exactly one describe call for the one name. */
  lemma GetTopicSelectsUniqueDescription(
    clusters: ClusterManager, admin: Admin, fromAclOperation: AclOperation -> Operation,
    clusterId: string, topicName: string, includeAuthorizedOperations: bool,
    descriptions: seq<TopicDescription>)
    requires ResolveCluster(clusters, clusterId).Success?
    requires admin.describeTopics([topicName], DescribeTopicsOptions(includeAuthorizedOperations)) == Success(descriptions)
    requires forall i :: 0 <= i < |descriptions| ==> |descriptions[i].partitions| > 0
    ensures var c := GetTopic(clusters, admin, fromAclOperation, clusterId, topicName, includeAuthorizedOperations);
      && c.requests == [DescribeTopicsRequest([topicName], DescribeTopicsOptions(includeAuthorizedOperations))]
      && (|descriptions| == 0 ==> c.result == Success(None))
      && (|descriptions| == 1 ==> c.result == Success(Some(ToTopic(clusterId, descriptions[0], fromAclOperation).value)))
      && (|descriptions| > 1 ==> c.result == Failure(MoreThanOneTopic(topicName)))
  {
  }

  /** With explicit assignments, the partition count and replication factor
      passed alongside do not reach the cluster: the create request is the same
      whatever they are. */
  lemma ExplicitPlacementIgnoresCountAndFactor(
    clusters: ClusterManager, admin: Admin, clusterId: string, topicName: string,
    partitionsCount: Option<int>, replicationFactor: Option<int>,
    otherPartitionsCount: Option<int>, otherReplicationFactor: Option<int>,
    replicasAssignments: map<int, seq<int>>, configs: map<string, Option<string>>, validateOnly: bool)
    requires |replicasAssignments| > 0
    ensures CreateTopic(clusters, admin, clusterId, topicName, partitionsCount, replicationFactor,
                        replicasAssignments, configs, validateOnly)
         == CreateTopic(clusters, admin, clusterId, topicName, otherPartitionsCount, otherReplicationFactor,
                        replicasAssignments, configs, validateOnly)
  {
  }

  /** `deleteTopic` consults the cluster lookup for its id and the admin
      client's delete answer for the one name, and nothing else: no listing,
      no describe. */
  lemma DeleteTopicConsultsOnlyDelete(
    clusters: ClusterManager, otherClusters: ClusterManager, admin: Admin, otherAdmin: Admin,
    clusterId: string, topicName: string)
    requires otherClusters.getCluster(clusterId) == clusters.getCluster(clusterId)
    requires otherAdmin.deleteTopics([topicName]) == admin.deleteTopics([topicName])
    ensures DeleteTopic(clusters, admin, clusterId, topicName)
         == DeleteTopic(otherClusters, otherAdmin, clusterId, topicName)
  {
  }

  /** The request `updateTopicPartitionsCount` issues is the same whatever the
      admin client answers, and its outcome depends only on the answer to that
      one-entry partition-increase map. */
  lemma UpdatePartitionsConsultsOnlyCreatePartitions(
    admin: Admin, otherAdmin: Admin, topicName: string, partitionsCount: int)
    ensures UpdateTopicPartitionsCount(admin, topicName, partitionsCount).requests
         == UpdateTopicPartitionsCount(otherAdmin, topicName, partitionsCount).requests
    ensures var m := map[topicName := IncreaseTo(partitionsCount)];
      otherAdmin.createPartitions(m, DefaultPartitionsOptions) == admin.createPartitions(m, DefaultPartitionsOptions) ==>
      UpdateTopicPartitionsCount(admin, topicName, partitionsCount)
        == UpdateTopicPartitionsCount(otherAdmin, topicName, partitionsCount)
  {
  }

  /** Reading a request config back as `Optional`s: `null` is empty. */
  function OptionalConfigs(configs: map<string, NullableString>): (m: map<string, Option<string>>)
    ensures m.Keys == configs.Keys
  {
    map k | k in configs :: match configs[k] case Null => None case NonNull(s) => Some(s)
  }

  /** The null-normalisation of `createTopic` loses nothing: it and reading
      back as `Optional`s are inverse to each other. */
  lemma NullableConfigsRoundTrip(configs: map<string, Option<string>>, nullable: map<string, NullableString>)
    ensures OptionalConfigs(NullableConfigs(configs)) == configs
    ensures NullableConfigs(OptionalConfigs(nullable)) == nullable
  {
  }
}
