/** What the reader loop does, event by event and over whole streams. */
module ParseProperties {
  import opened Wrappers
  import opened Numbers
  import opened Attributes
  import opened Entities
  import opened XmlEvents
  import opened Builder
  import opened AttributeLoops

  /** A start `node` opens a new node read from its own attributes alone,
      replacing (dropping) any node still open; the way and the store stay. */
  lemma StartNodeStep(b: BuilderState, attrs: seq<Attribute>, parseDouble: DoubleParser)
    ensures Step(b, XmlEntity(StartElement, "node", attrs), parseDouble).Err?
        <==> exists j :: 0 <= j < |attrs| && BadNodeAttribute(attrs[j], parseDouble)
    ensures Step(b, XmlEntity(StartElement, "node", attrs), parseDouble).Ok? ==>
      var b' := Step(b, XmlEntity(StartElement, "node", attrs), parseDouble).value;
      b'.nodes == b.nodes && b'.ways == b.ways && b'.currWay == b.currWay
      && b'.currNode.Some? && NodeReadFrom(NewNode, attrs, parseDouble, b'.currNode.value)
  {
    NodeAttributesRead(NewNode, attrs, parseDouble);
  }

  /** A second start `node` before an end leaves no trace of the earlier one. */
  lemma SecondStartDropsOpenNode(b: BuilderState, open: Node, attrs: seq<Attribute>, parseDouble: DoubleParser)
    ensures Step(b.(currNode := Some(open)), XmlEntity(StartElement, "node", attrs), parseDouble)
         == Step(b.(currNode := None), XmlEntity(StartElement, "node", attrs), parseDouble)
  {
  }

  /** A start `way` opens a new way read from its own attributes alone; the
      open node, if any, stays open. */
  lemma StartWayStep(b: BuilderState, attrs: seq<Attribute>, parseDouble: DoubleParser)
    ensures Step(b, XmlEntity(StartElement, "way", attrs), parseDouble).Err?
        <==> exists j :: 0 <= j < |attrs| && BadWayAttribute(attrs[j])
    ensures Step(b, XmlEntity(StartElement, "way", attrs), parseDouble).Ok? ==>
      var b' := Step(b, XmlEntity(StartElement, "way", attrs), parseDouble).value;
      b'.nodes == b.nodes && b'.ways == b.ways && b'.currNode == b.currNode
      && b'.currWay.Some? && WayReadFrom(NewWay, attrs, b'.currWay.value)
  {
    WayAttributesRead(NewWay, attrs);
  }

  /** An `nd` appends its `ref`s to the open way, and is a no-op without one. */
  lemma NdStep(b: BuilderState, attrs: seq<Attribute>, parseDouble: DoubleParser)
    ensures b.currWay.None? ==> Step(b, XmlEntity(StartElement, "nd", attrs), parseDouble) == Ok(b)
    ensures b.currWay.Some? ==>
      (Step(b, XmlEntity(StartElement, "nd", attrs), parseDouble).Err? <==> exists j :: 0 <= j < |attrs| && BadRef(attrs[j]))
    ensures b.currWay.Some? && Step(b, XmlEntity(StartElement, "nd", attrs), parseDouble).Ok? ==>
      var b' := Step(b, XmlEntity(StartElement, "nd", attrs), parseDouble).value;
      b'.nodes == b.nodes && b'.ways == b.ways && b'.currNode == b.currNode
      && b'.currWay.Some? && RefsAppended(b.currWay.value, attrs, b'.currWay.value)
  {
    if b.currWay.Some? {
      AppendRefsRead(b.currWay.value, attrs);
    }
  }

  /** A `tag` with a non-empty last `k` writes `attributes[k] = v` (v being the
      last `v`, or "") into every open entity, way and node alike; with an
      empty or missing `k` it changes nothing.  It never fails. */
  lemma TagStep(b: BuilderState, attrs: seq<Attribute>, parseDouble: DoubleParser)
    ensures Step(b, XmlEntity(StartElement, "tag", attrs), parseDouble).Ok?
    ensures LastValue(attrs, "k").GetOr("") == "" ==>
      Step(b, XmlEntity(StartElement, "tag", attrs), parseDouble).value == b
    ensures LastValue(attrs, "k").GetOr("") != "" ==>
      var k, v := LastValue(attrs, "k").value, LastValue(attrs, "v").GetOr("");
      var b' := Step(b, XmlEntity(StartElement, "tag", attrs), parseDouble).value;
      b'.nodes == b.nodes && b'.ways == b.ways
      && (b'.currWay.Some? <==> b.currWay.Some?)
      && (b'.currNode.Some? <==> b.currNode.Some?)
      && (b.currWay.Some? ==> b'.currWay.value == b.currWay.value.(attributes := Assign(b.currWay.value.attributes, k, v)))
      && (b.currNode.Some? ==> b'.currNode.value == b.currNode.value.(attributes := Assign(b.currNode.value.attributes, k, v)))
  {
    ScanTagReadsLast(attrs, "", "");
  }

  /** An end `node` with a node open commits exactly that node; an end `way`
      with a way open commits exactly that way; any other end is a no-op. */
  lemma EndStep(b: BuilderState, name: string, attrs: seq<Attribute>, parseDouble: DoubleParser)
    ensures name == "node" && b.currNode.Some? ==>
      Step(b, XmlEntity(EndElement, name, attrs), parseDouble)
        == Ok(BuilderState(b.nodes + [b.currNode.value], b.ways, None, b.currWay))
    ensures name == "way" && b.currWay.Some? ==>
      Step(b, XmlEntity(EndElement, name, attrs), parseDouble)
        == Ok(BuilderState(b.nodes, b.ways + [b.currWay.value], b.currNode, None))
    ensures !(name == "node" && b.currNode.Some?) && !(name == "way" && b.currWay.Some?) ==>
      Step(b, XmlEntity(EndElement, name, attrs), parseDouble) == Ok(b)
  {
  }

  /** Start elements outside the vocabulary and non-element entities are no-ops. */
  lemma UnrecognisedIgnored(b: BuilderState, e: XmlEntity, parseDouble: DoubleParser)
    requires e.kind == Other || (e.kind == StartElement && e.name != "node" && e.name != "way" && e.name != "nd" && e.name != "tag")
    ensures Step(b, e, parseDouble) == Ok(b)
  {
  }

  /** Running two stretches of events is running the first, then the second. */
  lemma {:induction false} RunConcat(b: BuilderState, xs: seq<XmlEntity>, ys: seq<XmlEntity>, parseDouble: DoubleParser)
    ensures Run(b, xs + ys, parseDouble)
         == match Run(b, xs, parseDouble)
            case Err(e) => Err(e)
            case Ok(b') => Run(b', ys, parseDouble)
    decreases |xs|
  {
    if xs == [] {
      assert xs + ys == ys;
    } else {
      assert (xs + ys)[0] == xs[0] && (xs + ys)[1..] == xs[1..] + ys;
      match Step(b, xs[0], parseDouble)
      case Err(e) =>
      case Ok(b1) => RunConcat(b1, xs[1..], ys, parseDouble);
    }
  }

  /** The number of end `node` events met while a node is open, tracking only
      whether one is open: a start `node` opens one, such an end closes it. */
  function NodeCloses(events: seq<XmlEntity>, open: bool): nat
    decreases |events|
  {
    if events == [] then 0
    else
      var e := events[0];
      if e.kind == StartElement && e.name == "node" then NodeCloses(events[1..], true)
      else if e.kind == EndElement && e.name == "node" && open then 1 + NodeCloses(events[1..], false)
      else NodeCloses(events[1..], open)
  }

  /** The same count for `way`. */
  function WayCloses(events: seq<XmlEntity>, open: bool): nat
    decreases |events|
  {
    if events == [] then 0
    else
      var e := events[0];
      if e.kind == StartElement && e.name == "way" then WayCloses(events[1..], true)
      else if e.kind == EndElement && e.name == "way" && open then 1 + WayCloses(events[1..], false)
      else WayCloses(events[1..], open)
  }

  /** The store only grows, at its end, by one entity per end event met while
      an entity of that kind was open. */
  lemma {:induction false} RunCommits(b: BuilderState, events: seq<XmlEntity>, parseDouble: DoubleParser)
    requires Run(b, events, parseDouble).Ok?
    ensures var b' := Run(b, events, parseDouble).value;
      |b'.nodes| == |b.nodes| + NodeCloses(events, b.currNode.Some?) && b'.nodes[..|b.nodes|] == b.nodes
      && |b'.ways| == |b.ways| + WayCloses(events, b.currWay.Some?) && b'.ways[..|b.ways|] == b.ways
    decreases |events|
  {
    if events != [] {
      var b1 := Step(b, events[0], parseDouble).value;
      RunCommits(b1, events[1..], parseDouble);
      var b' := Run(b, events, parseDouble).value;
      assert b'.nodes[..|b.nodes|] == b'.nodes[..|b1.nodes|][..|b.nodes|];
      assert b'.ways[..|b.ways|] == b'.ways[..|b1.ways|][..|b.ways|];
    }
  }

  /** NodeCount and WayCount of a successful parse count the closed entities. */
  lemma CountsAreCloses(events: seq<XmlEntity>, parseDouble: DoubleParser)
    requires Parse(events, parseDouble).Ok?
    ensures |Parse(events, parseDouble).value.nodes| == NodeCloses(events, false)
    ensures |Parse(events, parseDouble).value.ways| == WayCloses(events, false)
  {
    RunCommits(Initial, events, parseDouble);
  }

  lemma {:induction false} NoStartNoNodeClose(events: seq<XmlEntity>)
    requires forall j :: 0 <= j < |events| ==> events[j].kind != StartElement || events[j].name != "node"
    ensures NodeCloses(events, false) == 0
    decreases |events|
  {
    if events != [] {
      NoStartNoNodeClose(events[1..]);
    }
  }

  lemma {:induction false} NoStartNoWayClose(events: seq<XmlEntity>)
    requires forall j :: 0 <= j < |events| ==> events[j].kind != StartElement || events[j].name != "way"
    ensures WayCloses(events, false) == 0
    decreases |events|
  {
    if events != [] {
      NoStartNoWayClose(events[1..]);
    }
  }

  /** Without any start `node` (`way`) the parse commits no node (way). */
  lemma NoStartsNoEntities(events: seq<XmlEntity>, parseDouble: DoubleParser)
    requires Parse(events, parseDouble).Ok?
    ensures (forall j :: 0 <= j < |events| ==> events[j].kind != StartElement || events[j].name != "node")
      ==> Parse(events, parseDouble).value.nodes == []
    ensures (forall j :: 0 <= j < |events| ==> events[j].kind != StartElement || events[j].name != "way")
      ==> Parse(events, parseDouble).value.ways == []
  {
    CountsAreCloses(events, parseDouble);
    if forall j :: 0 <= j < |events| ==> events[j].kind != StartElement || events[j].name != "node" {
      NoStartNoNodeClose(events);
    }
    if forall j :: 0 <= j < |events| ==> events[j].kind != StartElement || events[j].name != "way" {
      NoStartNoWayClose(events);
    }
  }

  lemma {:induction false} NoEndNoNodeClose(events: seq<XmlEntity>, open: bool)
    requires forall j :: 0 <= j < |events| ==> events[j].kind != EndElement || events[j].name != "node"
    ensures NodeCloses(events, open) == 0
    decreases |events|
  {
    if events != [] {
      var e := events[0];
      NoEndNoNodeClose(events[1..], if e.kind == StartElement && e.name == "node" then true else open);
    }
  }

  /** A node opened and never closed before the events run out is never
      committed: the store is that of the events before it. */
  lemma UnclosedNodeDropped(prefix: seq<XmlEntity>, attrs: seq<Attribute>, rest: seq<XmlEntity>, parseDouble: DoubleParser)
    requires forall j :: 0 <= j < |rest| ==> rest[j].kind != EndElement || rest[j].name != "node"
    requires Parse(prefix + [XmlEntity(StartElement, "node", attrs)] + rest, parseDouble).Ok?
    ensures Parse(prefix, parseDouble).Ok?
    ensures Parse(prefix + [XmlEntity(StartElement, "node", attrs)] + rest, parseDouble).value.nodes
         == Parse(prefix, parseDouble).value.nodes
  {
    var e := XmlEntity(StartElement, "node", attrs);
    RunConcat(Initial, prefix, [e] + rest, parseDouble);
    assert prefix + [e] + rest == prefix + ([e] + rest);
    var b1 := Run(Initial, prefix, parseDouble).value;
    assert ([e] + rest)[0] == e && ([e] + rest)[1..] == rest;
    var b2 := Step(b1, e, parseDouble).value;
    RunCommits(b2, rest, parseDouble);
    NoEndNoNodeClose(rest, b2.currNode.Some?);
  }

  lemma {:induction false} NoEndNoWayClose(events: seq<XmlEntity>, open: bool)
    requires forall j :: 0 <= j < |events| ==> events[j].kind != EndElement || events[j].name != "way"
    ensures WayCloses(events, open) == 0
    decreases |events|
  {
    if events != [] {
      var e := events[0];
      NoEndNoWayClose(events[1..], if e.kind == StartElement && e.name == "way" then true else open);
    }
  }

  /** A way opened and never closed before the events run out is never
      committed: the store's ways are those of the events before it. */
  lemma UnclosedWayDropped(prefix: seq<XmlEntity>, attrs: seq<Attribute>, rest: seq<XmlEntity>, parseDouble: DoubleParser)
    requires forall j :: 0 <= j < |rest| ==> rest[j].kind != EndElement || rest[j].name != "way"
    requires Parse(prefix + [XmlEntity(StartElement, "way", attrs)] + rest, parseDouble).Ok?
    ensures Parse(prefix, parseDouble).Ok?
    ensures Parse(prefix + [XmlEntity(StartElement, "way", attrs)] + rest, parseDouble).value.ways
         == Parse(prefix, parseDouble).value.ways
  {
    var e := XmlEntity(StartElement, "way", attrs);
    RunConcat(Initial, prefix, [e] + rest, parseDouble);
    assert prefix + [e] + rest == prefix + ([e] + rest);
    var b1 := Run(Initial, prefix, parseDouble).value;
    assert ([e] + rest)[0] == e && ([e] + rest)[1..] == rest;
    var b2 := Step(b1, e, parseDouble).value;
    RunCommits(b2, rest, parseDouble);
    NoEndNoWayClose(rest, b2.currWay.Some?);
  }

  /** Every identifier and node reference fits in 64 bits (TNodeID, TWayID). */
  ghost predicate IdsFit(b: BuilderState) {
    (forall j :: 0 <= j < |b.nodes| ==> b.nodes[j].id < U64Limit)
    && (forall j :: 0 <= j < |b.ways| ==> WayFits(b.ways[j]))
    && (b.currNode.Some? ==> b.currNode.value.id < U64Limit)
    && (b.currWay.Some? ==> WayFits(b.currWay.value))
  }

  ghost predicate WayFits(w: Way) {
    w.id < U64Limit && forall j :: 0 <= j < |w.nodeIds| ==> w.nodeIds[j] < U64Limit
  }

  lemma StepKeepsIdsFit(b: BuilderState, e: XmlEntity, parseDouble: DoubleParser)
    requires IdsFit(b) && Step(b, e, parseDouble).Ok?
    ensures IdsFit(Step(b, e, parseDouble).value)
  {
    var b' := Step(b, e, parseDouble).value;
    if e.kind == StartElement && e.name == "node" {
      StartNodeStep(b, e.attributes, parseDouble);
    } else if e.kind == StartElement && e.name == "way" {
      StartWayStep(b, e.attributes, parseDouble);
    } else if e.kind == StartElement && e.name == "nd" && b.currWay.Some? {
      NdStep(b, e.attributes, parseDouble);
      var w0, w := b.currWay.value, b'.currWay.value;
      forall j | 0 <= j < |w.nodeIds| ensures w.nodeIds[j] < U64Limit {
        if j < |w0.nodeIds| {
          assert w.nodeIds[j] == w.nodeIds[..|w0.nodeIds|][j];
        } else {
          assert ParseU64(RefTexts(e.attributes)[j - |w0.nodeIds|]) == Some(w.nodeIds[j]);
        }
      }
    }
  }

  lemma {:induction false} RunKeepsIdsFit(b: BuilderState, events: seq<XmlEntity>, parseDouble: DoubleParser)
    requires IdsFit(b) && Run(b, events, parseDouble).Ok?
    ensures IdsFit(Run(b, events, parseDouble).value)
    decreases |events|
  {
    if events != [] {
      StepKeepsIdsFit(b, events[0], parseDouble);
      RunKeepsIdsFit(Step(b, events[0], parseDouble).value, events[1..], parseDouble);
    }
  }
}
