/** Whole parses of small, concrete event streams. */
module Scenarios {
  import opened Wrappers
  import opened Numbers
  import opened Attributes
  import opened Entities
  import opened XmlEvents
  import opened Builder
  import opened ParseProperties

  lemma ParseSmallIds()
    ensures ParseU64("1") == Some(1) && ParseU64("2") == Some(2) && ParseU64("10") == Some(10)
  {
    assert "10"[..1] == "1";
  }

  /** A node with an id, a location and one tag. */
  lemma OneTaggedNode(parseDouble: DoubleParser)
    requires parseDouble("47.1").Some? && parseDouble("-122.3").Some?
    ensures Parse([
        XmlEntity(StartElement, "node", [("id", "1"), ("lat", "47.1"), ("lon", "-122.3")]),
        XmlEntity(StartElement, "tag", [("k", "name"), ("v", "Park")]),
        XmlEntity(EndElement, "node", [])], parseDouble)
      == Ok(BuilderState(
        [Node(1, Coordinates(parseDouble("47.1").value, parseDouble("-122.3").value), map["name" := "Park"])],
        [], None, None))
  {
    ParseSmallIds();
    var e0 := XmlEntity(StartElement, "node", [("id", "1"), ("lat", "47.1"), ("lon", "-122.3")]);
    var e1 := XmlEntity(StartElement, "tag", [("k", "name"), ("v", "Park")]);
    var e2 := XmlEntity(EndElement, "node", []);
    var n := Node(1, Coordinates(parseDouble("47.1").value, parseDouble("-122.3").value), map[]);
    var b1 := Initial.(currNode := Some(n));
    var b2 := Initial.(currNode := Some(n.(attributes := map["name" := "Park"])));
    assert ApplyNodeAttributes(NewNode, e0.attributes, parseDouble) == Ok(n);
    assert Step(Initial, e0, parseDouble) == Ok(b1);
    assert ScanTag(e1.attributes, "", "") == ("name", "Park");
    assert Step(b1, e1, parseDouble) == Ok(b2);
    var b3 := BuilderState([n.(attributes := map["name" := "Park"])], [], None, None);
    assert [] + [n.(attributes := map["name" := "Park"])] == [n.(attributes := map["name" := "Park"])];
    assert Step(b2, e2, parseDouble) == Ok(b3);
    assert [e0, e1, e2][1..] == [e1, e2] && [e1, e2][1..] == [e2] && [e2][1..] == [];
  }

  /** A way with two node references and one tag. */
  lemma OneWayWithRefs(parseDouble: DoubleParser)
    ensures Parse([
        XmlEntity(StartElement, "way", [("id", "10")]),
        XmlEntity(StartElement, "nd", [("ref", "1")]),
        XmlEntity(StartElement, "nd", [("ref", "2")]),
        XmlEntity(StartElement, "tag", [("k", "highway"), ("v", "residential")]),
        XmlEntity(EndElement, "way", [])], parseDouble)
      == Ok(BuilderState([], [Way(10, [1, 2], map["highway" := "residential"])], None, None))
  {
    ParseSmallIds();
    var e0 := XmlEntity(StartElement, "way", [("id", "10")]);
    var e1 := XmlEntity(StartElement, "nd", [("ref", "1")]);
    var e2 := XmlEntity(StartElement, "nd", [("ref", "2")]);
    var e3 := XmlEntity(StartElement, "tag", [("k", "highway"), ("v", "residential")]);
    var e4 := XmlEntity(EndElement, "way", []);
    var b1 := Initial.(currWay := Some(Way(10, [], map[])));
    var b2 := Initial.(currWay := Some(Way(10, [1], map[])));
    var b3 := Initial.(currWay := Some(Way(10, [1, 2], map[])));
    var b4 := Initial.(currWay := Some(Way(10, [1, 2], map["highway" := "residential"])));
    assert ApplyWayAttributes(NewWay, e0.attributes) == Ok(Way(10, [], map[]));
    assert Step(Initial, e0, parseDouble) == Ok(b1);
    assert e1.attributes[1..] == [] && e2.attributes[1..] == [] && [] + [1] == [1] && [1] + [2] == [1, 2];
    assert AppendRefs(Way(10, [], map[]), e1.attributes) == Ok(Way(10, [1], map[]));
    assert Step(b1, e1, parseDouble) == Ok(b2);
    assert AppendRefs(Way(10, [1], map[]), e2.attributes) == Ok(Way(10, [1, 2], map[]));
    assert Step(b2, e2, parseDouble) == Ok(b3);
    assert ScanTag(e3.attributes, "", "") == ("highway", "residential");
    assert Step(b3, e3, parseDouble) == Ok(b4);
    assert [] + [b4.currWay.value] == [b4.currWay.value];
    assert Step(b4, e4, parseDouble) == Ok(BuilderState([], [Way(10, [1, 2], map["highway" := "residential"])], None, None));
    assert [e0, e1, e2, e3, e4][1..] == [e1, e2, e3, e4] && [e1, e2, e3, e4][1..] == [e2, e3, e4];
    assert [e2, e3, e4][1..] == [e3, e4] && [e3, e4][1..] == [e4] && [e4][1..] == [];
  }

  /** A non-numeric node id aborts the whole parse. */
  lemma NonNumericIdFails(rest: seq<XmlEntity>, parseDouble: DoubleParser)
    ensures Parse([XmlEntity(StartElement, "node", [("id", "abc")])] + rest, parseDouble)
         == Err(InvalidInteger("abc"))
  {
    var e := XmlEntity(StartElement, "node", [("id", "abc")]);
    ParseRejectsNonDigit("abc", 0);
    assert ([e] + rest)[0] == e;
  }

  /** An `nd` with no way open is skipped without converting its `ref`. */
  lemma StrayNdIgnored(parseDouble: DoubleParser)
    ensures Parse([XmlEntity(StartElement, "nd", [("ref", "not a number")])], parseDouble) == Ok(Initial)
  {
  }

  /** The empty stream builds the empty store. */
  lemma EmptyStream(parseDouble: DoubleParser)
    ensures Parse([], parseDouble) == Ok(Initial)
  {
  }

  /** A node nested in a way: the way's tag after the node closes goes to
      the way only, the node's tag to both. */
  lemma NodeInsideWay(parseDouble: DoubleParser)
    ensures Parse([
        XmlEntity(StartElement, "way", [("id", "2")]),
        XmlEntity(StartElement, "node", [("id", "1")]),
        XmlEntity(StartElement, "tag", [("k", "a"), ("v", "x")]),
        XmlEntity(EndElement, "node", []),
        XmlEntity(StartElement, "tag", [("k", "b")]),
        XmlEntity(EndElement, "way", [])], parseDouble)
      == Ok(BuilderState(
        [Node(1, Coordinates(0.0, 0.0), map["a" := "x"])],
        [Way(2, [], map["a" := "x", "b" := ""])], None, None))
  {
    ParseSmallIds();
    var e0 := XmlEntity(StartElement, "way", [("id", "2")]);
    var e1 := XmlEntity(StartElement, "node", [("id", "1")]);
    var e2 := XmlEntity(StartElement, "tag", [("k", "a"), ("v", "x")]);
    var e3 := XmlEntity(EndElement, "node", []);
    var e4 := XmlEntity(StartElement, "tag", [("k", "b")]);
    var e5 := XmlEntity(EndElement, "way", []);
    var n := Node(1, Coordinates(0.0, 0.0), map["a" := "x"]);
    var b1 := Initial.(currWay := Some(Way(2, [], map[])));
    var b2 := b1.(currNode := Some(n.(attributes := map[])));
    var b3 := BuilderState([], [], Some(n), Some(Way(2, [], map["a" := "x"])));
    var b4 := BuilderState([n], [], None, Some(Way(2, [], map["a" := "x"])));
    var b5 := BuilderState([n], [], None, Some(Way(2, [], map["a" := "x", "b" := ""])));
    assert ApplyWayAttributes(NewWay, e0.attributes) == Ok(Way(2, [], map[]));
    assert Step(Initial, e0, parseDouble) == Ok(b1);
    assert ApplyNodeAttributes(NewNode, e1.attributes, parseDouble) == Ok(n.(attributes := map[]));
    assert Step(b1, e1, parseDouble) == Ok(b2);
    assert ScanTag(e2.attributes, "", "") == ("a", "x");
    assert Step(b2, e2, parseDouble) == Ok(b3);
    assert [] + [n] == [n];
    assert Step(b3, e3, parseDouble) == Ok(b4);
    assert ScanTag(e4.attributes, "", "") == ("b", "");
    assert Step(b4, e4, parseDouble) == Ok(b5);
    assert [] + [b5.currWay.value] == [b5.currWay.value];
    assert Step(b5, e5, parseDouble) == Ok(BuilderState([n], [Way(2, [], map["a" := "x", "b" := ""])], None, None));
    assert [e0, e1, e2, e3, e4, e5][1..] == [e1, e2, e3, e4, e5] && [e1, e2, e3, e4, e5][1..] == [e2, e3, e4, e5];
    assert [e2, e3, e4, e5][1..] == [e3, e4, e5] && [e3, e4, e5][1..] == [e4, e5];
    assert [e4, e5][1..] == [e5] && [e5][1..] == [];
  }
}
