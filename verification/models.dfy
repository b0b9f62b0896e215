/**
 * Shapes of the records exchanged between the data generator, the gateway
 * and the per-partition store. They carry no behaviour.
 */
module Models {
  import opened Wrappers

  /** One (key, value) pair of a star's property list. */
  type Property = (string, string)

  /**
   * A catalog entry. `id` and `galaxyId` are set by the data generator; the
   * property list keeps its order and may repeat keys.
   */
  datatype StarEntity = StarEntity(
    id: string,
    galaxyId: string,
    galaxyName: string,
    starName: string,
    data: seq<Property>)

  /** What a replica returns for a read: its partition id and the matched stars. */
  datatype StarInfo = StarInfo(endpointRole: Option<string>, partitionId: string, stars: seq<StarEntity>)

  /** What the gateway returns for a read. */
  datatype StarsInfo = StarsInfo(endpointRole: string, endpointAddress: string, stars: seq<StarEntity>)

  /** What the gateway returns for a write. */
  datatype StarInsertResult = StarInsertResult(
    result: string,
    partitionKey: string,
    inputValue: string,
    servicePartitionId: string,
    serviceReplicaAddress: string)

  /** The exceptions the modelled code lets escape. */
  datatype Exception =
    | InvalidOperation(message: string)    // `First()` on an empty or unmatched sequence
    | IndexOutOfRange                      // array indexing past the end
    | ArgumentOutOfRange                   // `Random.Next` with min > max
}
