/** Translation of the cluster's topic descriptors into the REST entities
    (`toTopic` and `toPartition` of the topic manager). */
module EntityMapper {
  import opened Wrappers
  import opened KafkaAdmin
  import opened Entities
  import opened Errors

  /** Java's narrowing `(short)` cast of a non-negative `int`: the low 16 bits,
      read as a two's-complement number. */
  function ToShort(n: nat): (s: int)
    ensures -32768 <= s < 32768
    ensures (n - s) % 65536 == 0
    ensures n < 32768 ==> s == n
  {
    var low := n % 65536;
    if low < 32768 then low else low - 65536
  }

  /** `replica` is the entity the mapper builds for `node`, a replica of
      partition `partition` of `topicName`, given that partition's leader and
      whether `node` is one of its in-sync replicas. */
  predicate DescribesReplica(
    replica: PartitionReplica, clusterId: string, topicName: string, partition: int,
    node: Node, leader: Option<Node>, inSync: bool)
  {
    && replica.clusterId == clusterId
    && replica.topicName == topicName
    && replica.partitionId == partition
    && replica.brokerId == node.id
    && (replica.isLeader <==> leader == Some(node))
    && replica.isInSync == inSync
  }

  /** The loop of `toPartition`: one replica entity per replica node, in order. */
  function ToReplicas(
    clusterId: string, topicName: string, partition: int,
    nodes: seq<Node>, leader: Option<Node>, inSyncReplicas: set<Node>): (rs: seq<PartitionReplica>)
    ensures |rs| == |nodes|
    ensures forall i :: 0 <= i < |rs| ==>
      DescribesReplica(rs[i], clusterId, topicName, partition, nodes[i], leader, nodes[i] in inSyncReplicas)
    decreases |nodes|
  {
    if |nodes| == 0 then []
    else
      [PartitionReplica(clusterId, topicName, partition, nodes[0].id,
                        leader == Some(nodes[0]), nodes[0] in inSyncReplicas)]
      + ToReplicas(clusterId, topicName, partition, nodes[1..], leader, inSyncReplicas)
  }

  /** `toPartition`: the ISR list becomes a set, then each replica node is mapped in order. */
  function ToPartition(clusterId: string, topicName: string, info: TopicPartitionInfo): (p: Partition)
    ensures p.clusterId == clusterId && p.topicName == topicName && p.partitionId == info.partition
    ensures |p.replicas| == |info.replicas|
    ensures forall i :: 0 <= i < |p.replicas| ==>
      DescribesReplica(p.replicas[i], clusterId, topicName, info.partition, info.replicas[i], info.leader,
                       info.replicas[i] in info.isr)
  {
    var inSyncReplicas := set n | n in info.isr;
    Partition(clusterId, topicName, info.partition,
              ToReplicas(clusterId, topicName, info.partition, info.replicas, info.leader, inSyncReplicas))
  }

  /** The stream `partitions().stream().map(toPartition)` of `toTopic`. */
  function ToPartitions(clusterId: string, topicName: string, infos: seq<TopicPartitionInfo>): (ps: seq<Partition>)
    ensures |ps| == |infos|
    ensures forall i :: 0 <= i < |infos| ==> ps[i] == ToPartition(clusterId, topicName, infos[i])
    decreases |infos|
  {
    if |infos| == 0 then []
    else [ToPartition(clusterId, topicName, infos[0])] + ToPartitions(clusterId, topicName, infos[1..])
  }

  /** `toTopic`. The replication factor is the replica count of partition 0,
      cast to `short`; a description without partitions fails at that read.
      Absent authorized operations become the empty set; present ones are
      translated one by one with `fromAclOperation`. */
  function ToTopic(clusterId: string, d: TopicDescription, fromAclOperation: AclOperation -> Operation): (r: Result<Topic, Error>)
    ensures r.Failure? <==> |d.partitions| == 0
    ensures r.Failure? ==> r.error == NoPartitions(d.name)
    ensures r.Success? ==>
      && r.value.clusterId == clusterId
      && r.value.name == d.name
      && r.value.isInternal == d.isInternal
      && |r.value.partitions| == |d.partitions|
      && (forall i :: 0 <= i < |d.partitions| ==> r.value.partitions[i] == ToPartition(clusterId, d.name, d.partitions[i]))
      && r.value.replicationFactor == ToShort(|d.partitions[0].replicas|)
    ensures r.Success? && d.authorizedOperations.None? ==> r.value.authorizedOperations == {}
    ensures r.Success? && d.authorizedOperations.Some? ==>
      forall op :: op in r.value.authorizedOperations <==>
        exists a :: a in d.authorizedOperations.value && fromAclOperation(a) == op
  {
    if |d.partitions| == 0 then Failure(NoPartitions(d.name))
    else
      var operations :=
        match d.authorizedOperations
        case None => {}
        case Some(acl) => set a | a in acl :: fromAclOperation(a);
      Success(Topic(clusterId, d.name, ToPartitions(clusterId, d.name, d.partitions),
                    ToShort(|d.partitions[0].replicas|), d.isInternal, operations))
  }

  /** The mapping stage of `describeTopics`: every description in turn; the
      first one that cannot be mapped fails the whole batch. */
  function ToTopics(clusterId: string, descriptions: seq<TopicDescription>, fromAclOperation: AclOperation -> Operation): (r: Result<seq<Topic>, Error>)
    ensures r.Success? <==> forall i :: 0 <= i < |descriptions| ==> |descriptions[i].partitions| > 0
    ensures r.Success? ==>
      && |r.value| == |descriptions|
      && forall i :: 0 <= i < |descriptions| ==> ToTopic(clusterId, descriptions[i], fromAclOperation) == Success(r.value[i])
    ensures r.Failure? ==>
      exists k :: 0 <= k < |descriptions| && |descriptions[k].partitions| == 0
        && r.error == NoPartitions(descriptions[k].name)
        && forall j :: 0 <= j < k ==> |descriptions[j].partitions| > 0
    decreases |descriptions|
  {
    if |descriptions| == 0 then Success([])
    else
      match ToTopic(clusterId, descriptions[0], fromAclOperation)
      case Failure(e) => Failure(e)
      case Success(t) =>
        match ToTopics(clusterId, descriptions[1..], fromAclOperation)
        case Failure(e) => Failure(e)
        case Success(ts) => Success([t] + ts)
  }

  /** The indices of the replicas flagged as leader. */
  function LeaderIndices(replicas: seq<PartitionReplica>): set<int>
  {
    set i | 0 <= i < |replicas| && replicas[i].isLeader
  }

  /** No node appears twice in the list. */
  predicate Distinct(nodes: seq<Node>)
  {
    forall i, j :: 0 <= i < j < |nodes| ==> nodes[i] != nodes[j]
  }

  /** With pairwise-distinct replica nodes, exactly one replica is flagged as
      leader when the leader is one of the replicas, and none otherwise (in
      particular none while the partition is leaderless). */
  lemma LeaderFlagIsUnique(clusterId: string, topicName: string, info: TopicPartitionInfo)
    requires Distinct(info.replicas)
    ensures var flagged := LeaderIndices(ToPartition(clusterId, topicName, info).replicas);
      |flagged| == (if info.leader.Some? && info.leader.value in info.replicas then 1 else 0)
  {
    var p := ToPartition(clusterId, topicName, info);
    var flagged := LeaderIndices(p.replicas);
    if info.leader.Some? && info.leader.value in info.replicas {
      var k :| 0 <= k < |info.replicas| && info.replicas[k] == info.leader.value;
      assert DescribesReplica(p.replicas[k], clusterId, topicName, info.partition, info.replicas[k], info.leader, info.replicas[k] in info.isr);
      assert flagged == {k} by {
        forall i | i in flagged ensures i == k {
          assert DescribesReplica(p.replicas[i], clusterId, topicName, info.partition, info.replicas[i], info.leader, info.replicas[i] in info.isr);
          assert info.replicas[i] == info.replicas[k];
        }
      }
    } else {
      forall i | 0 <= i < |p.replicas| ensures !p.replicas[i].isLeader {
        assert DescribesReplica(p.replicas[i], clusterId, topicName, info.partition, info.replicas[i], info.leader, info.replicas[i] in info.isr);
        assert info.replicas[i] in info.replicas;
      }
      assert flagged == {};
    }
  }

  /** The in-sync flags depend only on which nodes the ISR list contains, not
      on its order or duplicates. */
  lemma InSyncIgnoresIsrOrder(clusterId: string, topicName: string, info: TopicPartitionInfo, isr: seq<Node>)
    requires forall n :: n in isr <==> n in info.isr
    ensures ToPartition(clusterId, topicName, info.(isr := isr)) == ToPartition(clusterId, topicName, info)
  {
  }

  /** The replication factor reads partition 0 only: partitions after it,
      whatever their replica counts, do not change it. Below 32768 replicas
      it equals partition 0's replica count. */
  lemma ReplicationFactorFromFirstPartition(
    clusterId: string, d: TopicDescription, later: seq<TopicPartitionInfo>, fromAclOperation: AclOperation -> Operation)
    requires |d.partitions| > 0
    ensures var t := ToTopic(clusterId, d, fromAclOperation);
      var t' := ToTopic(clusterId, d.(partitions := d.partitions[..1] + later), fromAclOperation);
      t.Success? && t'.Success? && t.value.replicationFactor == t'.value.replicationFactor
    ensures |d.partitions[0].replicas| < 32768 ==>
      ToTopic(clusterId, d, fromAclOperation).value.replicationFactor == |d.partitions[0].replicas|
  {
  }
}
