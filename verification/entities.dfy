/** The REST layer's own entities, built afresh from the cluster's descriptors on every read. */
module Entities {

  /** A cluster; only its id matters to the topic manager. */
  datatype Cluster = Cluster(clusterId: string)

  /** An access-control operation in the REST layer's own vocabulary. */
  datatype Operation = Operation(name: string)

  datatype PartitionReplica = PartitionReplica(
    clusterId: string,
    topicName: string,
    partitionId: int,
    brokerId: int,
    isLeader: bool,
    isInSync: bool)

  datatype Partition = Partition(
    clusterId: string,
    topicName: string,
    partitionId: int,
    replicas: seq<PartitionReplica>)

  /** `replicationFactor` holds a Java `short`, so it lies in [-32768, 32767]. */
  datatype Topic = Topic(
    clusterId: string,
    name: string,
    partitions: seq<Partition>,
    replicationFactor: int,
    isInternal: bool,
    authorizedOperations: set<Operation>)
}
