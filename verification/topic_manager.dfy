/** The topic manager's operations. Each asynchronous pipeline is modelled as
    a sequential one: the cluster manager and admin client are inputs that
    supply the answers, and every operation returns the result it completes
    with together with the admin requests it issued, in order. */
module TopicManager {
  import opened Wrappers
  import opened KafkaAdmin
  import opened Entities
  import opened Errors
  import opened EntityMapper
  import opened Sequences

  /** What a returned future completes with, and the admin calls made on the way. */
  datatype Completion<T> = Completion(result: Result<T, Error>, requests: seq<AdminRequest>)

  /** The cluster manager's answers: `getCluster` may find no cluster for an
      id; `getLocalCluster` either yields the home cluster or fails. */
  datatype ClusterManager = ClusterManager(
    getCluster: string -> Result<Option<Cluster>, string>,
    getLocalCluster: Result<Cluster, string>)

  /** `getCluster` followed by `checkEntityExists`. */
  function ResolveCluster(clusters: ClusterManager, clusterId: string): (r: Result<Cluster, Error>)
    ensures r.Success? <==> clusters.getCluster(clusterId).Success? && clusters.getCluster(clusterId).value.Some?
    ensures r.Success? ==> clusters.getCluster(clusterId) == Success(Some(r.value))
    ensures clusters.getCluster(clusterId) == Success(None) ==> r == Failure(ClusterNotFound(clusterId))
    ensures r.Failure? && clusters.getCluster(clusterId).Failure? ==> r.error == Upstream(clusters.getCluster(clusterId).error)
  {
    match clusters.getCluster(clusterId)
    case Failure(reason) => Failure(Upstream(reason))
    case Success(None) => Failure(ClusterNotFound(clusterId))
    case Success(Some(cluster)) => Success(cluster)
  }

  /** The names of a topic listing, in listing order. */
  function ListedNames(listings: seq<TopicListing>): (names: seq<string>)
    ensures |names| == |listings|
    ensures forall i :: 0 <= i < |listings| ==> names[i] == listings[i].name
  {
    Project(listings, (listing: TopicListing) => listing.name)
  }

  /** `describeTopics`: exactly one bulk describe call for all the names, then
      every returned description mapped to a topic of `clusterId`. */
  function DescribeTopics(
    admin: Admin, fromAclOperation: AclOperation -> Operation,
    clusterId: string, topicNames: seq<string>, includeAuthorizedOperations: bool): (c: Completion<seq<Topic>>)
    ensures c.requests == [DescribeTopicsRequest(topicNames, DescribeTopicsOptions(includeAuthorizedOperations))]
    ensures var described := admin.describeTopics(topicNames, DescribeTopicsOptions(includeAuthorizedOperations));
      && (described.Failure? ==> c.result == Failure(Upstream(described.error)))
      && (described.Success? ==> c.result == ToTopics(clusterId, described.value, fromAclOperation))
    ensures c.result.Success? ==> forall i :: 0 <= i < |c.result.value| ==> c.result.value[i].clusterId == clusterId
  {
    var options := DescribeTopicsOptions(includeAuthorizedOperations);
    var request := DescribeTopicsRequest(topicNames, options);
    match admin.describeTopics(topicNames, options)
    case Failure(reason) => Completion(Failure(Upstream(reason)), [request])
    case Success(descriptions) => Completion(ToTopics(clusterId, descriptions, fromAclOperation), [request])
  }

  /** The options of the listing call: `adminClient.listTopics()` uses the
      defaults, which leave internal topics out. */
  const DefaultListOptions := ListTopicsOptions(false)

  /** The stage after the cluster has been found, shared by `listTopics` and
      `listLocalTopics`: list the names, and describe them unless the listing is null. */
  function ListAndDescribe(
    admin: Admin, fromAclOperation: AclOperation -> Operation,
    clusterId: string, includeAuthorizedOperations: bool): (c: Completion<seq<Topic>>)
    ensures |c.requests| >= 1 && c.requests[0] == ListTopicsRequest(DefaultListOptions)
    ensures var listed := admin.listTopics(DefaultListOptions);
      && (listed.Failure? ==> c == Completion(Failure(Upstream(listed.error)), [ListTopicsRequest(DefaultListOptions)]))
      && (listed == Success(None) ==> c == Completion(Success([]), [ListTopicsRequest(DefaultListOptions)]))
      && (listed.Success? && listed.value.Some? ==>
            var d := DescribeTopics(admin, fromAclOperation, clusterId, ListedNames(listed.value.value), includeAuthorizedOperations);
            c == Completion(d.result, [ListTopicsRequest(DefaultListOptions)] + d.requests))
    ensures (exists i :: 0 <= i < |c.requests| && c.requests[i].DescribeTopicsRequest?) <==>
      admin.listTopics(DefaultListOptions).Success? && admin.listTopics(DefaultListOptions).value.Some?
    ensures c.result.Success? ==> forall i :: 0 <= i < |c.result.value| ==> c.result.value[i].clusterId == clusterId
  {
    var request := ListTopicsRequest(DefaultListOptions);
    match admin.listTopics(DefaultListOptions)
    case Failure(reason) => Completion(Failure(Upstream(reason)), [request])
    case Success(None) => Completion(Success([]), [request])
    case Success(Some(listings)) =>
      var d := DescribeTopics(admin, fromAclOperation, clusterId, ListedNames(listings), includeAuthorizedOperations);
      var c := Completion(d.result, [request] + d.requests);
      assert c.requests[1].DescribeTopicsRequest?;
      c
  }

  /** `listTopics`: the cluster must exist before the admin client is asked
      anything; a null listing yields no topics without a describe call. */
  function ListTopics(
    clusters: ClusterManager, admin: Admin, fromAclOperation: AclOperation -> Operation,
    clusterId: string, includeAuthorizedOperations: bool): (c: Completion<seq<Topic>>)
    ensures ResolveCluster(clusters, clusterId).Failure? ==>
      c == Completion(Failure(ResolveCluster(clusters, clusterId).error), [])
    ensures ResolveCluster(clusters, clusterId).Success? ==>
      c == ListAndDescribe(admin, fromAclOperation, clusterId, includeAuthorizedOperations)
    ensures c.requests != [] <==> ResolveCluster(clusters, clusterId).Success?
    ensures (exists i :: 0 <= i < |c.requests| && c.requests[i].DescribeTopicsRequest?) <==>
      && ResolveCluster(clusters, clusterId).Success?
      && admin.listTopics(DefaultListOptions).Success? && admin.listTopics(DefaultListOptions).value.Some?
    ensures c.result.Success? ==> forall i :: 0 <= i < |c.result.value| ==> c.result.value[i].clusterId == clusterId
  {
    match ResolveCluster(clusters, clusterId)
    case Failure(e) => Completion(Failure(e), [])
    case Success(_) => ListAndDescribe(admin, fromAclOperation, clusterId, includeAuthorizedOperations)
  }

  /** `listLocalTopics`: the same pipeline over the home cluster, never asking
      for authorized operations. */
  function ListLocalTopics(
    clusters: ClusterManager, admin: Admin, fromAclOperation: AclOperation -> Operation): (c: Completion<seq<Topic>>)
    ensures clusters.getLocalCluster.Failure? ==>
      c == Completion(Failure(Upstream(clusters.getLocalCluster.error)), [])
    ensures clusters.getLocalCluster.Success? ==>
      c == ListAndDescribe(admin, fromAclOperation, clusters.getLocalCluster.value.clusterId, false)
    ensures forall i :: 0 <= i < |c.requests| && c.requests[i].DescribeTopicsRequest? ==>
      !c.requests[i].describeOptions.includeAuthorizedOperations
  {
    match clusters.getLocalCluster
    case Failure(reason) => Completion(Failure(Upstream(reason)), [])
    case Success(cluster) => ListAndDescribe(admin, fromAclOperation, cluster.clusterId, false)
  }

  /** The selection of `getTopic`: no topic is absent, one topic is present,
      and more than one is an error rather than a silent pick. */
  function SelectTopic(topics: seq<Topic>, topicName: string): (r: Result<Option<Topic>, Error>)
    ensures r.Success? <==> |topics| <= 1
    ensures r == Success(None) <==> topics == []
    ensures forall t :: r == Success(Some(t)) <==> topics == [t]
    ensures r.Failure? ==> r.error == MoreThanOneTopic(topicName)
  {
    if |topics| == 0 then Success(None)
    else if |topics| > 1 then Failure(MoreThanOneTopic(topicName))
    else Success(Some(topics[0]))
  }

  /** The stage after the cluster has been found, shared by `getTopic` and
      `getLocalTopic`: one describe call for the single name, then the selection. */
  function DescribeAndSelect(
    admin: Admin, fromAclOperation: AclOperation -> Operation,
    clusterId: string, topicName: string, includeAuthorizedOperations: bool): (c: Completion<Option<Topic>>)
    ensures c.requests == [DescribeTopicsRequest([topicName], DescribeTopicsOptions(includeAuthorizedOperations))]
    ensures var d := DescribeTopics(admin, fromAclOperation, clusterId, [topicName], includeAuthorizedOperations);
      && (d.result.Failure? ==> c.result == Failure(d.result.error))
      && (d.result.Success? ==> c.result == SelectTopic(d.result.value, topicName))
  {
    var d := DescribeTopics(admin, fromAclOperation, clusterId, [topicName], includeAuthorizedOperations);
    match d.result
    case Failure(e) => Completion(Failure(e), d.requests)
    case Success(topics) => Completion(SelectTopic(topics, topicName), d.requests)
  }

  /** `getTopic`. */
  function GetTopic(
    clusters: ClusterManager, admin: Admin, fromAclOperation: AclOperation -> Operation,
    clusterId: string, topicName: string, includeAuthorizedOperations: bool): (c: Completion<Option<Topic>>)
    ensures ResolveCluster(clusters, clusterId).Failure? ==>
      c == Completion(Failure(ResolveCluster(clusters, clusterId).error), [])
    ensures ResolveCluster(clusters, clusterId).Success? ==>
      c == DescribeAndSelect(admin, fromAclOperation, clusterId, topicName, includeAuthorizedOperations)
    ensures c.result.Success? && c.result.value.Some? ==>
      c.result.value.value.clusterId == clusterId
  {
    match ResolveCluster(clusters, clusterId)
    case Failure(e) => Completion(Failure(e), [])
    case Success(_) => DescribeAndSelect(admin, fromAclOperation, clusterId, topicName, includeAuthorizedOperations)
  }

  /** `getLocalTopic`: the same over the home cluster, never asking for authorized operations. */
  function GetLocalTopic(
    clusters: ClusterManager, admin: Admin, fromAclOperation: AclOperation -> Operation,
    topicName: string): (c: Completion<Option<Topic>>)
    ensures clusters.getLocalCluster.Failure? ==>
      c == Completion(Failure(Upstream(clusters.getLocalCluster.error)), [])
    ensures clusters.getLocalCluster.Success? ==>
      c == DescribeAndSelect(admin, fromAclOperation, clusters.getLocalCluster.value.clusterId, topicName, false)
  {
    match clusters.getLocalCluster
    case Failure(reason) => Completion(Failure(Upstream(reason)), [])
    case Success(cluster) => DescribeAndSelect(admin, fromAclOperation, cluster.clusterId, topicName, false)
  }

  /** `Optional::orElse(null)`. */
  function OrNull(value: Option<string>): (n: NullableString)
    ensures n == Null <==> value == None
    ensures value.Some? ==> n == NonNull(value.value)
  {
    match value
    case None => Null
    case Some(s) => NonNull(s)
  }

  /** The config map of the create request: every key kept, an absent value
      passed as `null`. */
  function NullableConfigs(configs: map<string, Option<string>>): (m: map<string, NullableString>)
    ensures m.Keys == configs.Keys
    ensures forall k :: k in configs ==> (m[k] == Null <==> configs[k] == None)
    ensures forall k :: k in configs && configs[k].Some? ==> m[k] == NonNull(configs[k].value)
  {
    map k | k in configs :: OrNull(configs[k])
  }

  /** The request `createTopic` sends: explicit placement when assignments
      are given, uniform placement from the count and factor otherwise. */
  function NewTopicRequest(
    topicName: string, partitionsCount: Option<int>, replicationFactor: Option<int>,
    replicasAssignments: map<int, seq<int>>, configs: map<string, Option<string>>): (t: NewTopic)
    ensures t.name == topicName
    ensures t.placement.Explicit? <==> |replicasAssignments| > 0
    ensures t.placement.Explicit? ==> t.placement.replicasAssignments == replicasAssignments
    ensures t.placement.Uniform? ==>
      t.placement.numPartitions == partitionsCount && t.placement.replicationFactor == replicationFactor
    ensures t.configs == NullableConfigs(configs)
  {
    var nullableConfigs := NullableConfigs(configs);
    if |replicasAssignments| == 0 then NewTopic(topicName, Uniform(partitionsCount, replicationFactor), nullableConfigs)
    else NewTopic(topicName, Explicit(replicasAssignments), nullableConfigs)
  }

  /** `createTopic`: one create call for the one request once the cluster is
      found; `validateOnly` selects the dry-run option. */
  function CreateTopic(
    clusters: ClusterManager, admin: Admin, clusterId: string, topicName: string,
    partitionsCount: Option<int>, replicationFactor: Option<int>,
    replicasAssignments: map<int, seq<int>>, configs: map<string, Option<string>>,
    validateOnly: bool): (c: Completion<()>)
    ensures ResolveCluster(clusters, clusterId).Failure? ==>
      c == Completion(Failure(ResolveCluster(clusters, clusterId).error), [])
    ensures ResolveCluster(clusters, clusterId).Success? ==>
      var request := NewTopicRequest(topicName, partitionsCount, replicationFactor, replicasAssignments, configs);
      var created := admin.createTopics([request], CreateTopicsOptions(validateOnly));
      && c.requests == [CreateTopicsRequest([request], CreateTopicsOptions(validateOnly))]
      && (c.result.Success? <==> created.Success?)
      && (created.Failure? ==> c.result.error == Upstream(created.error))
  {
    var request := NewTopicRequest(topicName, partitionsCount, replicationFactor, replicasAssignments, configs);
    var options := CreateTopicsOptions(validateOnly);
    match ResolveCluster(clusters, clusterId)
    case Failure(e) => Completion(Failure(e), [])
    case Success(_) =>
      match admin.createTopics([request], options)
      case Failure(reason) => Completion(Failure(Upstream(reason)), [CreateTopicsRequest([request], options)])
      case Success(_) => Completion(Success(()), [CreateTopicsRequest([request], options)])
  }

  /** The `createTopic` overload without `validateOnly`: never a dry run. */
  function CreateTopicCommitted(
    clusters: ClusterManager, admin: Admin, clusterId: string, topicName: string,
    partitionsCount: Option<int>, replicationFactor: Option<int>,
    replicasAssignments: map<int, seq<int>>, configs: map<string, Option<string>>): (c: Completion<()>)
    ensures forall i :: 0 <= i < |c.requests| ==>
      c.requests[i].CreateTopicsRequest? && !c.requests[i].createOptions.validateOnly
    ensures c == CreateTopic(clusters, admin, clusterId, topicName, partitionsCount, replicationFactor,
                             replicasAssignments, configs, false)
  {
    CreateTopic(clusters, admin, clusterId, topicName, partitionsCount, replicationFactor,
                replicasAssignments, configs, false)
  }

  /** `deleteTopic`: one delete call for exactly that name once the cluster is found. */
  function DeleteTopic(clusters: ClusterManager, admin: Admin, clusterId: string, topicName: string): (c: Completion<()>)
    ensures ResolveCluster(clusters, clusterId).Failure? ==>
      c == Completion(Failure(ResolveCluster(clusters, clusterId).error), [])
    ensures ResolveCluster(clusters, clusterId).Success? ==>
      && c.requests == [DeleteTopicsRequest([topicName])]
      && (c.result.Success? <==> admin.deleteTopics([topicName]).Success?)
      && (admin.deleteTopics([topicName]).Failure? ==> c.result.error == Upstream(admin.deleteTopics([topicName]).error))
  {
    match ResolveCluster(clusters, clusterId)
    case Failure(e) => Completion(Failure(e), [])
    case Success(_) =>
      match admin.deleteTopics([topicName])
      case Failure(reason) => Completion(Failure(Upstream(reason)), [DeleteTopicsRequest([topicName])])
      case Success(_) => Completion(Success(()), [DeleteTopicsRequest([topicName])])
  }

  /** The options of the partition-increase call: `createPartitions` with one
      argument uses the defaults, which apply the increase rather than only
      validating it. */
  const DefaultPartitionsOptions := CreatePartitionsOptions(false)

  /** `updateTopicPartitionsCount`: no cluster lookup; one partition-increase
      call, not a dry run, whose map has the one topic as its only key. */
  function UpdateTopicPartitionsCount(admin: Admin, topicName: string, partitionsCount: int): (c: Completion<()>)
    ensures |c.requests| == 1 && c.requests[0].CreatePartitionsRequest?
    ensures !c.requests[0].partitionsOptions.validateOnly
    ensures var m := c.requests[0].newPartitions;
      var increased := admin.createPartitions(m, c.requests[0].partitionsOptions);
      && m.Keys == {topicName}
      && m[topicName] == IncreaseTo(partitionsCount)
      && (c.result.Success? <==> increased.Success?)
      && (increased.Failure? ==> c.result.error == Upstream(increased.error))
  {
    var newPartitions := map[topicName := IncreaseTo(partitionsCount)];
    var request := CreatePartitionsRequest(newPartitions, DefaultPartitionsOptions);
    match admin.createPartitions(newPartitions, DefaultPartitionsOptions)
    case Failure(reason) => Completion(Failure(Upstream(reason)), [request])
    case Success(_) => Completion(Success(()), [request])
  }
}
