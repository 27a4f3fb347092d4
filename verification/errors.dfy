/** The ways a topic-manager operation can complete exceptionally. */
module Errors {

  datatype Error =
      /** `checkEntityExists` found no cluster for the requested id. */
    | ClusterNotFound(clusterId: string)
      /** The single-name describe returned more than one topic (`IllegalStateException`). */
    | MoreThanOneTopic(topicName: string)
      /** A described topic has no partitions, so reading the replica count of
          partition 0 fails (`IndexOutOfBoundsException`). */
    | NoPartitions(topicName: string)
      /** A failure reported by the cluster manager or the admin client, passed on unchanged. */
    | Upstream(reason: string)
}
