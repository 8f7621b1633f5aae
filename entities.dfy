/** The two kinds of map entity the store holds, as values. */
module Entities {
  import opened Attributes

  /** TLocation: the (latitude, longitude) pair of doubles; a double is modelled
      by a real produced by the caller-supplied conversion. */
  datatype Coordinates = Coordinates(lat: real, lon: real)

  /** SNodeImpl: identifier, location and attribute map. */
  datatype Node = Node(id: nat, location: Coordinates, attributes: AttributeMap)

  /** SWayImpl: identifier, the ordered node references and attribute map. */
  datatype Way = Way(id: nat, nodeIds: seq<nat>, attributes: AttributeMap)

  /** make_shared value-initialises a fresh entity: zero id, zero location,
      no attributes, no node references. */
  const NewNode: Node := Node(0, Coordinates(0.0, 0.0), map[])
  const NewWay: Way := Way(0, [], map[])
}
