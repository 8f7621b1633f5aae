/** The parse state machine as a function of the event stream.  The builder
    state is the two committed vectors plus the two "currently open" pointers
    currNode and currWay, each possibly null. */
module Builder {
  import opened Wrappers
  import opened Numbers
  import opened Attributes
  import opened Entities
  import opened XmlEvents

  /** Why a parse is aborted: std::stoull or std::stod threw on this text. */
  datatype ParseError = InvalidInteger(text: string) | InvalidDouble(text: string)

  /** The double conversion used for lat and lon, which the model leaves to the caller. */
  type DoubleParser = string -> Option<real>

  datatype BuilderState = BuilderState(
    nodes: seq<Node>,
    ways: seq<Way>,
    currNode: Option<Node>,
    currWay: Option<Way>)

  const Initial: BuilderState := BuilderState([], [], None, None)

  /** One attribute of a start `node`: id and lat/lon go to their fields
      (converted, which may throw), anything else into the attribute map. */
  function SetNodeAttribute(n: Node, a: Attribute, parseDouble: DoubleParser): Result<Node, ParseError> {
    var (name, text) := a;
    if name == "id" then
      match ParseU64(text)
      case None => Err(InvalidInteger(text))
      case Some(x) => Ok(n.(id := x))
    else if name == "lat" then
      match parseDouble(text)
      case None => Err(InvalidDouble(text))
      case Some(d) => Ok(n.(location := n.location.(lat := d)))
    else if name == "lon" then
      match parseDouble(text)
      case None => Err(InvalidDouble(text))
      case Some(d) => Ok(n.(location := n.location.(lon := d)))
    else
      Ok(n.(attributes := Assign(n.attributes, name, text)))
  }

  /** The attribute loop of a start `node`, in document order. */
  function ApplyNodeAttributes(n: Node, attrs: seq<Attribute>, parseDouble: DoubleParser): Result<Node, ParseError>
    decreases |attrs|
  {
    if attrs == [] then Ok(n)
    else
      var n' :- SetNodeAttribute(n, attrs[0], parseDouble);
      ApplyNodeAttributes(n', attrs[1..], parseDouble)
  }

  /** One attribute of a start `way`: id to its field, anything else to the map. */
  function SetWayAttribute(w: Way, a: Attribute): Result<Way, ParseError> {
    var (name, text) := a;
    if name == "id" then
      match ParseU64(text)
      case None => Err(InvalidInteger(text))
      case Some(x) => Ok(w.(id := x))
    else
      Ok(w.(attributes := Assign(w.attributes, name, text)))
  }

  /** The attribute loop of a start `way`, in document order. */
  function ApplyWayAttributes(w: Way, attrs: seq<Attribute>): Result<Way, ParseError>
    decreases |attrs|
  {
    if attrs == [] then Ok(w)
    else
      var w' :- SetWayAttribute(w, attrs[0]);
      ApplyWayAttributes(w', attrs[1..])
  }

  /** One attribute of an `nd`: a `ref` is converted and appended, others ignored. */
  function AddRef(w: Way, a: Attribute): Result<Way, ParseError> {
    if a.0 == "ref" then
      match ParseU64(a.1)
      case None => Err(InvalidInteger(a.1))
      case Some(x) => Ok(w.(nodeIds := w.nodeIds + [x]))
    else
      Ok(w)
  }

  /** The attribute loop of an `nd`, in document order. */
  function AppendRefs(w: Way, attrs: seq<Attribute>): Result<Way, ParseError>
    decreases |attrs|
  {
    if attrs == [] then Ok(w)
    else
      var w' :- AddRef(w, attrs[0]);
      AppendRefs(w', attrs[1..])
  }

  /** The attribute loop of a `tag`, carrying the k and v read so far. */
  function ScanTag(attrs: seq<Attribute>, k: string, v: string): (string, string)
    decreases |attrs|
  {
    if attrs == [] then (k, v)
    else
      var k' := if attrs[0].0 == "k" then attrs[0].1 else k;
      var v' := if attrs[0].0 == "v" then attrs[0].1 else v;
      ScanTag(attrs[1..], k', v')
  }

  function TagWay(w: Option<Way>, k: string, v: string): Option<Way> {
    match w
    case None => None
    case Some(x) => Some(x.(attributes := Assign(x.attributes, k, v)))
  }

  function TagNode(n: Option<Node>, k: string, v: string): Option<Node> {
    match n
    case None => None
    case Some(x) => Some(x.(attributes := Assign(x.attributes, k, v)))
  }

  /** One iteration of the reader loop.  It commits at most the entity that
      is open, and only by appending it. */
  function Step(b: BuilderState, e: XmlEntity, parseDouble: DoubleParser): (r: Result<BuilderState, ParseError>)
    ensures r.Ok? ==> r.value.nodes == b.nodes || (b.currNode.Some? && r.value.nodes == b.nodes + [b.currNode.value])
    ensures r.Ok? ==> r.value.ways == b.ways || (b.currWay.Some? && r.value.ways == b.ways + [b.currWay.value])
  {
    match e.kind
    case StartElement =>
      if e.name == "node" then
        var n :- ApplyNodeAttributes(NewNode, e.attributes, parseDouble);
        Ok(b.(currNode := Some(n)))
      else if e.name == "way" then
        var w :- ApplyWayAttributes(NewWay, e.attributes);
        Ok(b.(currWay := Some(w)))
      else if e.name == "nd" && b.currWay.Some? then
        var w :- AppendRefs(b.currWay.value, e.attributes);
        Ok(b.(currWay := Some(w)))
      else if e.name == "tag" then
        var kv := ScanTag(e.attributes, "", "");
        if kv.0 != "" then
          Ok(b.(currWay := TagWay(b.currWay, kv.0, kv.1), currNode := TagNode(b.currNode, kv.0, kv.1)))
        else
          Ok(b)
      else
        Ok(b)
    case EndElement =>
      if e.name == "node" && b.currNode.Some? then
        Ok(b.(nodes := b.nodes + [b.currNode.value], currNode := None))
      else if e.name == "way" && b.currWay.Some? then
        Ok(b.(ways := b.ways + [b.currWay.value], currWay := None))
      else
        Ok(b)
    case Other =>
      Ok(b)
  }

  /** The whole reader loop from state b; the first exception aborts it. */
  function Run(b: BuilderState, events: seq<XmlEntity>, parseDouble: DoubleParser): Result<BuilderState, ParseError>
    decreases |events|
  {
    if events == [] then Ok(b)
    else
      var b' :- Step(b, events[0], parseDouble);
      Run(b', events[1..], parseDouble)
  }

  /** What the constructor builds: the loop run from an empty store. */
  function Parse(events: seq<XmlEntity>, parseDouble: DoubleParser): Result<BuilderState, ParseError> {
    Run(Initial, events, parseDouble)
  }
}
