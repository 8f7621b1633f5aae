/** What the attribute loops of the start `node`, start `way`, `nd` and `tag`
    elements compute, stated against an independent reading of the attribute
    list: the last value given to each name. */
module AttributeLoops {
  import opened Wrappers
  import opened Numbers
  import opened Attributes
  import opened Entities
  import opened XmlEvents
  import opened Builder

  /** The value of the last attribute called `name`, if there is one. */
  function LastValue(attrs: seq<Attribute>, name: string): Option<string>
    decreases |attrs|
  {
    if attrs == [] then None
    else
      match LastValue(attrs[1..], name)
      case Some(v) => Some(v)
      case None => if attrs[0].0 == name then Some(attrs[0].1) else None
  }

  /** LastValue is the value at the last position that carries the name. */
  lemma {:induction false} LastValueIsLast(attrs: seq<Attribute>, name: string)
    ensures LastValue(attrs, name).None? <==> forall j :: 0 <= j < |attrs| ==> attrs[j].0 != name
    ensures LastValue(attrs, name).Some? ==>
      exists j :: 0 <= j < |attrs| && attrs[j] == (name, LastValue(attrs, name).value)
               && forall j' :: j < j' < |attrs| ==> attrs[j'].0 != name
    decreases |attrs|
  {
    if attrs != [] {
      var rest := attrs[1..];
      LastValueIsLast(rest, name);
      assert forall j :: 0 <= j < |rest| ==> rest[j] == attrs[j + 1];
      match LastValue(rest, name)
      case Some(v) =>
        var j :| 0 <= j < |rest| && rest[j] == (name, v) && forall j' :: j < j' < |rest| ==> rest[j'].0 != name;
        assert attrs[j + 1] == (name, v);
        assert forall j' :: j + 1 < j' < |attrs| ==> attrs[j'].0 == rest[j' - 1].0;
      case None =>
        if attrs[0].0 == name {
          assert attrs[0] == (name, attrs[0].1);
        } else {
          forall j | 0 <= j < |attrs| ensures attrs[j].0 != name {
            if j > 0 { assert attrs[j] == rest[j - 1]; }
          }
        }
    }
  }

  /** The names a start `node` stores in fields rather than in its map. */
  predicate IsNodeField(name: string) {
    name == "id" || name == "lat" || name == "lon"
  }

  /** An attribute of a start `node` whose conversion throws. */
  predicate BadNodeAttribute(a: Attribute, parseDouble: DoubleParser) {
    (a.0 == "id" && ParseU64(a.1).None?) || ((a.0 == "lat" || a.0 == "lon") && parseDouble(a.1).None?)
  }

  /** m is m0 after `attributes[name] = value` for every attribute whose name
      is not reserved: each such name ends up with its last value. */
  ghost predicate MapReadFrom(m0: AttributeMap, attrs: seq<Attribute>, reserved: set<string>, m: AttributeMap) {
    (forall k :: k in m <==> k in m0 || (k !in reserved && LastValue(attrs, k).Some?))
    && (forall k :: k in m ==>
          m[k] == if k !in reserved && LastValue(attrs, k).Some? then LastValue(attrs, k).value else m0[k])
  }

  /** One attribute more in front of an already-read list. */
  lemma MapReadStep(m0: AttributeMap, attrs: seq<Attribute>, reserved: set<string>, m: AttributeMap)
    requires attrs != []
    requires MapReadFrom(if attrs[0].0 in reserved then m0 else Assign(m0, attrs[0].0, attrs[0].1), attrs[1..], reserved, m)
    ensures MapReadFrom(m0, attrs, reserved, m)
  {
    forall k ensures LastValue(attrs, k) == if LastValue(attrs[1..], k).Some? then LastValue(attrs[1..], k)
                                            else if attrs[0].0 == k then Some(attrs[0].1) else None {
    }
  }

  /** The fields of n are those of n0 after reading attrs. */
  ghost predicate NodeFieldsReadFrom(n0: Node, attrs: seq<Attribute>, parseDouble: DoubleParser, n: Node) {
    (match LastValue(attrs, "id")
     case None => n.id == n0.id
     case Some(s) => ParseU64(s) == Some(n.id))
    && (match LastValue(attrs, "lat")
        case None => n.location.lat == n0.location.lat
        case Some(s) => parseDouble(s) == Some(n.location.lat))
    && (match LastValue(attrs, "lon")
        case None => n.location.lon == n0.location.lon
        case Some(s) => parseDouble(s) == Some(n.location.lon))
  }

  const NodeFields: set<string> := {"id", "lat", "lon"}
  const WayFields: set<string> := {"id"}

  /** n is n0 after reading attrs: each field holds the conversion of the last
      attribute of its name (or is untouched), and the map gains the last value
      of every other name. */
  ghost predicate NodeReadFrom(n0: Node, attrs: seq<Attribute>, parseDouble: DoubleParser, n: Node) {
    NodeFieldsReadFrom(n0, attrs, parseDouble, n) && MapReadFrom(n0.attributes, attrs, NodeFields, n.attributes)
  }

  lemma NodeReadStep(n0: Node, attrs: seq<Attribute>, parseDouble: DoubleParser, n: Node)
    requires attrs != [] && SetNodeAttribute(n0, attrs[0], parseDouble).Ok?
    requires NodeReadFrom(SetNodeAttribute(n0, attrs[0], parseDouble).value, attrs[1..], parseDouble, n)
    ensures NodeReadFrom(n0, attrs, parseDouble, n)
  {
    MapReadStep(n0.attributes, attrs, NodeFields, n.attributes);
  }

  lemma {:induction false} NodeAttributesRead(n0: Node, attrs: seq<Attribute>, parseDouble: DoubleParser)
    ensures ApplyNodeAttributes(n0, attrs, parseDouble).Err?
        <==> exists j :: 0 <= j < |attrs| && BadNodeAttribute(attrs[j], parseDouble)
    ensures ApplyNodeAttributes(n0, attrs, parseDouble).Ok? ==>
      NodeReadFrom(n0, attrs, parseDouble, ApplyNodeAttributes(n0, attrs, parseDouble).value)
    decreases |attrs|
  {
    if attrs != [] {
      var rest := attrs[1..];
      if BadNodeAttribute(attrs[0], parseDouble) {
        assert ApplyNodeAttributes(n0, attrs, parseDouble).Err?;
      } else {
        var n1 := SetNodeAttribute(n0, attrs[0], parseDouble).value;
        NodeAttributesRead(n1, rest, parseDouble);
        if ApplyNodeAttributes(n0, attrs, parseDouble).Ok? {
          NodeReadStep(n0, attrs, parseDouble, ApplyNodeAttributes(n0, attrs, parseDouble).value);
        }
        if exists j :: 0 <= j < |attrs| && BadNodeAttribute(attrs[j], parseDouble) {
          var j :| 0 <= j < |attrs| && BadNodeAttribute(attrs[j], parseDouble);
          assert BadNodeAttribute(rest[j - 1], parseDouble);
        }
        if exists j :: 0 <= j < |rest| && BadNodeAttribute(rest[j], parseDouble) {
          var j :| 0 <= j < |rest| && BadNodeAttribute(rest[j], parseDouble);
          assert BadNodeAttribute(attrs[j + 1], parseDouble);
        }
      }
    }
  }

  /** An attribute of a start `way` whose conversion throws. */
  predicate BadWayAttribute(a: Attribute) {
    a.0 == "id" && ParseU64(a.1).None?
  }

  /** w is w0 after reading attrs: the id is the conversion of the last `id`
      (or untouched), the references are untouched, and the map gains the
      last value of every other name. */
  ghost predicate WayReadFrom(w0: Way, attrs: seq<Attribute>, w: Way) {
    (match LastValue(attrs, "id")
     case None => w.id == w0.id
     case Some(s) => ParseU64(s) == Some(w.id))
    && w.nodeIds == w0.nodeIds
    && MapReadFrom(w0.attributes, attrs, WayFields, w.attributes)
  }

  lemma {:induction false} WayAttributesRead(w0: Way, attrs: seq<Attribute>)
    ensures ApplyWayAttributes(w0, attrs).Err? <==> exists j :: 0 <= j < |attrs| && BadWayAttribute(attrs[j])
    ensures ApplyWayAttributes(w0, attrs).Ok? ==> WayReadFrom(w0, attrs, ApplyWayAttributes(w0, attrs).value)
    decreases |attrs|
  {
    if attrs != [] {
      var rest := attrs[1..];
      if BadWayAttribute(attrs[0]) {
        assert ApplyWayAttributes(w0, attrs).Err?;
      } else {
        var w1 := SetWayAttribute(w0, attrs[0]).value;
        WayAttributesRead(w1, rest);
        if ApplyWayAttributes(w0, attrs).Ok? {
          MapReadStep(w0.attributes, attrs, WayFields, ApplyWayAttributes(w0, attrs).value.attributes);
        }
        if exists j :: 0 <= j < |attrs| && BadWayAttribute(attrs[j]) {
          var j :| 0 <= j < |attrs| && BadWayAttribute(attrs[j]);
          assert BadWayAttribute(rest[j - 1]);
        }
        if exists j :: 0 <= j < |rest| && BadWayAttribute(rest[j]) {
          var j :| 0 <= j < |rest| && BadWayAttribute(rest[j]);
          assert BadWayAttribute(attrs[j + 1]);
        }
      }
    }
  }

  /** The values of the `ref` attributes, in document order. */
  function RefTexts(attrs: seq<Attribute>): seq<string>
    decreases |attrs|
  {
    if attrs == [] then []
    else (if attrs[0].0 == "ref" then [attrs[0].1] else []) + RefTexts(attrs[1..])
  }

  /** A `ref` attribute whose conversion throws. */
  predicate BadRef(a: Attribute) {
    a.0 == "ref" && ParseU64(a.1).None?
  }

  /** w is w0 with one reference appended per `ref` text, in order, and
      nothing else changed. */
  ghost predicate RefsAppended(w0: Way, attrs: seq<Attribute>, w: Way) {
    w.id == w0.id && w.attributes == w0.attributes
    && |w.nodeIds| == |w0.nodeIds| + |RefTexts(attrs)|
    && w.nodeIds[..|w0.nodeIds|] == w0.nodeIds
    && forall j :: 0 <= j < |RefTexts(attrs)| ==> ParseU64(RefTexts(attrs)[j]) == Some(w.nodeIds[|w0.nodeIds| + j])
  }

  lemma {:induction false} AppendRefsRead(w0: Way, attrs: seq<Attribute>)
    ensures AppendRefs(w0, attrs).Err? <==> exists j :: 0 <= j < |attrs| && BadRef(attrs[j])
    ensures AppendRefs(w0, attrs).Ok? ==> RefsAppended(w0, attrs, AppendRefs(w0, attrs).value)
    decreases |attrs|
  {
    if attrs != [] {
      var rest := attrs[1..];
      if BadRef(attrs[0]) {
        assert AppendRefs(w0, attrs).Err?;
      } else {
        var w1 := AddRef(w0, attrs[0]).value;
        AppendRefsRead(w1, rest);
        if AppendRefs(w0, attrs).Ok? {
          var w := AppendRefs(w0, attrs).value;
          var n0 := |w0.nodeIds|;
          if attrs[0].0 == "ref" {
            assert RefTexts(attrs) == [attrs[0].1] + RefTexts(rest);
            assert w.nodeIds[..n0] == w.nodeIds[..n0 + 1][..n0];
            forall j | 0 <= j < |RefTexts(attrs)|
              ensures ParseU64(RefTexts(attrs)[j]) == Some(w.nodeIds[n0 + j])
            {
              if j == 0 {
                assert w.nodeIds[n0] == w.nodeIds[..n0 + 1][n0];
              } else {
                assert RefTexts(attrs)[j] == RefTexts(rest)[j - 1];
              }
            }
          } else {
            assert RefTexts(attrs) == RefTexts(rest);
          }
        }
        if exists j :: 0 <= j < |attrs| && BadRef(attrs[j]) {
          var j :| 0 <= j < |attrs| && BadRef(attrs[j]);
          assert BadRef(rest[j - 1]);
        }
        if exists j :: 0 <= j < |rest| && BadRef(rest[j]) {
          var j :| 0 <= j < |rest| && BadRef(rest[j]);
          assert BadRef(attrs[j + 1]);
        }
      }
    }
  }

  /** The tag loop keeps the last `k` and the last `v` it meets. */
  lemma {:induction false} ScanTagReadsLast(attrs: seq<Attribute>, k: string, v: string)
    ensures ScanTag(attrs, k, v) == (LastValue(attrs, "k").GetOr(k), LastValue(attrs, "v").GetOr(v))
    decreases |attrs|
  {
    if attrs != [] {
      var k' := if attrs[0].0 == "k" then attrs[0].1 else k;
      var v' := if attrs[0].0 == "v" then attrs[0].1 else v;
      ScanTagReadsLast(attrs[1..], k', v');
    }
  }
}
