/** COpenStreetMap: the store built once from the reader's events, and the
    queries over it.  The reader loop and its attribute loops are written as
    the imperative loops they are, each proved against the Builder function
    that describes it. */
module StreetMap {
  import opened Wrappers
  import opened Numbers
  import opened Attributes
  import opened Entities
  import opened XmlEvents
  import opened Builder

  /** The attribute loop of a start `node`, on a freshly value-initialised node. */
  method ReadNode(attrs: seq<Attribute>, parseDouble: DoubleParser) returns (r: Result<Node, ParseError>)
    ensures r == ApplyNodeAttributes(NewNode, attrs, parseDouble)
  {
    var n := NewNode;
    var j := 0;
    while j < |attrs|
      invariant 0 <= j <= |attrs|
      invariant ApplyNodeAttributes(NewNode, attrs, parseDouble) == ApplyNodeAttributes(n, attrs[j..], parseDouble)
    {
      var name, text := attrs[j].0, attrs[j].1;
      if name == "id" {
        var x := ParseU64(text);
        if x.None? { return Err(InvalidInteger(text)); }
        n := n.(id := x.value);
      } else if name == "lat" {
        var d := parseDouble(text);
        if d.None? { return Err(InvalidDouble(text)); }
        n := n.(location := n.location.(lat := d.value));
      } else if name == "lon" {
        var d := parseDouble(text);
        if d.None? { return Err(InvalidDouble(text)); }
        n := n.(location := n.location.(lon := d.value));
      } else {
        n := n.(attributes := n.attributes[name := text]);
      }
      j := j + 1;
    }
    return Ok(n);
  }

  /** The attribute loop of a start `way`, on a freshly value-initialised way. */
  method ReadWay(attrs: seq<Attribute>) returns (r: Result<Way, ParseError>)
    ensures r == ApplyWayAttributes(NewWay, attrs)
  {
    var w := NewWay;
    var j := 0;
    while j < |attrs|
      invariant 0 <= j <= |attrs|
      invariant ApplyWayAttributes(NewWay, attrs) == ApplyWayAttributes(w, attrs[j..])
    {
      var name, text := attrs[j].0, attrs[j].1;
      if name == "id" {
        var x := ParseU64(text);
        if x.None? { return Err(InvalidInteger(text)); }
        w := w.(id := x.value);
      } else {
        w := w.(attributes := w.attributes[name := text]);
      }
      j := j + 1;
    }
    return Ok(w);
  }

  /** The attribute loop of an `nd` inside an open way: push_back each `ref`. */
  method PushRefs(way: Way, attrs: seq<Attribute>) returns (r: Result<Way, ParseError>)
    ensures r == AppendRefs(way, attrs)
  {
    var w := way;
    var j := 0;
    while j < |attrs|
      invariant 0 <= j <= |attrs|
      invariant AppendRefs(way, attrs) == AppendRefs(w, attrs[j..])
    {
      if attrs[j].0 == "ref" {
        var x := ParseU64(attrs[j].1);
        if x.None? { return Err(InvalidInteger(attrs[j].1)); }
        w := w.(nodeIds := w.nodeIds + [x.value]);
      }
      j := j + 1;
    }
    return Ok(w);
  }

  /** The attribute loop of a `tag`: the last `k` and the last `v`, "" if none. */
  method ReadTag(attrs: seq<Attribute>) returns (k: string, v: string)
    ensures (k, v) == ScanTag(attrs, "", "")
  {
    k, v := "", "";
    var j := 0;
    while j < |attrs|
      invariant 0 <= j <= |attrs|
      invariant ScanTag(attrs, "", "") == ScanTag(attrs[j..], k, v)
    {
      if attrs[j].0 == "k" {
        k := attrs[j].1;
      }
      if attrs[j].0 == "v" {
        v := attrs[j].1;
      }
      j := j + 1;
    }
  }

  class OpenStreetMap {
    var nodes: seq<Node>
    var ways: seq<Way>

    /** make_unique<SImplementation>(): both vectors empty. */
    constructor ()
      ensures nodes == [] && ways == []
    {
      nodes := [];
      ways := [];
    }

    /** SImplementation::parse: the reader loop.  On success the vectors
        hold what the state machine commits; an exception returns its error. */
    method Parse(events: seq<XmlEntity>, parseDouble: DoubleParser) returns (failure: Option<ParseError>)
      modifies this
      ensures failure.Some? <==> Run(BuilderState(old(nodes), old(ways), None, None), events, parseDouble).Err?
      ensures failure.Some? ==> Run(BuilderState(old(nodes), old(ways), None, None), events, parseDouble).error == failure.value
      ensures failure.None? ==>
        var b := Run(BuilderState(old(nodes), old(ways), None, None), events, parseDouble).value;
        nodes == b.nodes && ways == b.ways
    {
      ghost var start := BuilderState(nodes, ways, None, None);
      var currNode: Option<Node> := None;
      var currWay: Option<Way> := None;
      var i := 0;
      while i < |events|
        invariant 0 <= i <= |events|
        invariant Run(start, events, parseDouble) == Run(BuilderState(nodes, ways, currNode, currWay), events[i..], parseDouble)
      {
        ghost var b := BuilderState(nodes, ways, currNode, currWay);
        var ent := events[i];
        assert events[i..][0] == ent && events[i..][1..] == events[i + 1..];
        if ent.kind == StartElement {
          if ent.name == "node" {
            var r := ReadNode(ent.attributes, parseDouble);
            if r.Err? { return Some(r.error); }
            currNode := Some(r.value);
          } else if ent.name == "way" {
            var r := ReadWay(ent.attributes);
            if r.Err? { return Some(r.error); }
            currWay := Some(r.value);
          } else if ent.name == "nd" && currWay.Some? {
            var r := PushRefs(currWay.value, ent.attributes);
            if r.Err? { return Some(r.error); }
            currWay := Some(r.value);
          } else if ent.name == "tag" {
            var k, v := ReadTag(ent.attributes);
            if k != "" {
              if currWay.Some? {
                currWay := Some(currWay.value.(attributes := currWay.value.attributes[k := v]));
              }
              if currNode.Some? {
                currNode := Some(currNode.value.(attributes := currNode.value.attributes[k := v]));
              }
            }
          }
        } else if ent.kind == EndElement {
          if ent.name == "node" && currNode.Some? {
            nodes := nodes + [currNode.value];
            currNode := None;
          } else if ent.name == "way" && currWay.Some? {
            ways := ways + [currWay.value];
            currWay := None;
          }
        }
        assert Step(b, ent, parseDouble) == Ok(BuilderState(nodes, ways, currNode, currWay));
        i := i + 1;
      }
      return None;
    }

    /** The COpenStreetMap constructor: build the store from the events, or
        fail as the escaping exception does, leaving no store. */
    static method Open(events: seq<XmlEntity>, parseDouble: DoubleParser) returns (r: Result<OpenStreetMap, ParseError>)
      ensures r.Err? <==> Builder.Parse(events, parseDouble).Err?
      ensures r.Err? ==> r.error == Builder.Parse(events, parseDouble).error
      ensures r.Ok? ==> fresh(r.value)
      ensures r.Ok? ==> r.value.nodes == Builder.Parse(events, parseDouble).value.nodes
      ensures r.Ok? ==> r.value.ways == Builder.Parse(events, parseDouble).value.ways
    {
      var m := new OpenStreetMap();
      var failure := m.Parse(events, parseDouble);
      if failure.Some? {
        return Err(failure.value);
      }
      return Ok(m);
    }

    function NodeCount(): nat
      reads this
    {
      |nodes|
    }

    function WayCount(): nat
      reads this
    {
      |ways|
    }

    /** The node committed at position `index`, or null past the end. */
    function NodeByIndex(index: nat): (r: Option<Node>)
      reads this
      ensures r.Some? <==> index < NodeCount()
      ensures r.Some? ==> r.value == nodes[index]
    {
      if index < |nodes| then Some(nodes[index]) else None
    }

    /** The way committed at position `index`, or null past the end. */
    function WayByIndex(index: nat): (r: Option<Way>)
      reads this
      ensures r.Some? <==> index < WayCount()
      ensures r.Some? ==> r.value == ways[index]
    {
      if index < |ways| then Some(ways[index]) else None
    }

    /** Linear scan: the first committed node with this id, or null. */
    method NodeByID(id: nat) returns (r: Option<Node>)
      ensures r.None? <==> forall k :: 0 <= k < |nodes| ==> nodes[k].id != id
      ensures r.Some? ==> exists k :: 0 <= k < |nodes| && nodes[k] == r.value && nodes[k].id == id
                                    && forall j :: 0 <= j < k ==> nodes[j].id != id
    {
      var k := 0;
      while k < |nodes|
        invariant 0 <= k <= |nodes|
        invariant forall j :: 0 <= j < k ==> nodes[j].id != id
      {
        if nodes[k].id == id {
          return Some(nodes[k]);
        }
        k := k + 1;
      }
      return None;
    }

    /** Linear scan: the first committed way with this id, or null. */
    method WayByID(id: nat) returns (r: Option<Way>)
      ensures r.None? <==> forall k :: 0 <= k < |ways| ==> ways[k].id != id
      ensures r.Some? ==> exists k :: 0 <= k < |ways| && ways[k] == r.value && ways[k].id == id
                                    && forall j :: 0 <= j < k ==> ways[j].id != id
    {
      var k := 0;
      while k < |ways|
        invariant 0 <= k <= |ways|
        invariant forall j :: 0 <= j < k ==> ways[j].id != id
      {
        if ways[k].id == id {
          return Some(ways[k]);
        }
        k := k + 1;
      }
      return None;
    }
  }
}
