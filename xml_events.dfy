/** The event stream the external XML reader supplies, one entity at a time. */
module XmlEvents {

  /** Start and end tags are the only kinds the parser looks at; character
      data and any other kind the reader produces are grouped under Other. */
  datatype EntityType = StartElement | EndElement | Other

  type Attribute = (string, string)

  /** SXMLEntity: kind, element name and the attributes in document order. */
  datatype XmlEntity = XmlEntity(kind: EntityType, name: string, attributes: seq<Attribute>)
}
