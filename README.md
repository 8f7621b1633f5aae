# OpenStreetMap store builder, modelled in Dafny

This project models `COpenStreetMap` from `proj3/src/OpenStreetMap.cpp`. It builds a store
of map entities from a stream of XML events and answers queries about them. There are two
kinds of entity:

- **nodes**: an id, a latitude/longitude pair and a string-to-string attribute map;
- **ways**: an id, an ordered list of node ids and an attribute map.

The constructor runs one loop over the reader's entities. The loop keeps two possibly-null
"currently open" entities, `currNode` and `currWay`. It fills them from the attributes of
start `node` / `way` elements and from `nd` and `tag` children. It pushes an entity onto the
`nodes` or `ways` vector when the matching end element comes. Queries then count the
entities, index them, and look them up by id with a linear scan.

Files and modules:

- `wrappers.dfy` (`Wrappers`): `Option`, which models a null pointer, and `Result`, which
  models a thrown exception.
- `numbers.dfy` (`Numbers`): `ParseU64` is the decimal text-to-`uint64` conversion used for
  ids and refs. `Decimal` renders a number, and the round-trip lemma connects the two.
- `attributes.dfy` (`Attributes`): the attribute map as a `map<string, string>`, its
  accessors, and the iterator walk of `GetAttributeKey` as a loop.
- `entities.dfy` (`Entities`): `Node` and `Way` as values, and the value-initialised
  fresh entity of each kind.
- `xml_events.dfy` (`XmlEvents`): the reader's entities (kind, name, attribute list).
- `builder.dfy` (`Builder`): the reader loop as functions. `Step` handles one event and
  `Run` handles a stream. Each attribute loop is a fold, with one function per attribute.
- `street_map.dfy` (`StreetMap`): the class `OpenStreetMap` with `seq` fields `nodes` and
  `ways`. `Parse` is the imperative loop; `ReadNode`, `ReadWay`, `PushRefs` and `ReadTag`
  are the inner attribute loops. Each loop is proved equal to the `Builder` function it
  implements. The query methods and functions are also here.
- `attribute_loops.dfy` (`AttributeLoops`): what each attribute loop computes, stated
  against `LastValue`, an independent definition of "the last attribute with this name".
- `parse_properties.dfy` (`ParseProperties`): what each kind of event does, and what a whole
  run does (see the table).
- `scenarios.dfy` (`Scenarios`): whole parses of small concrete streams.

The entity accessors map onto the model as follows:

- `ID()` is the field `id`, and `Location()` is the field `location`.
- `SWayImpl::NodeCount()` is `|nodeIds|`, the length of the way's reference list.
- `HasAttribute`, `GetAttribute` and `GetAttributeKey` are the `Attributes` functions and
  method, applied to the entity's `attributes`. Nodes and ways share one definition of
  each, because the C++ copies at lines 26-52 and 70-96 match.
- `AttributeCount` (lines 22-24) is a node accessor only; `SWayImpl` does not define one.
  `Attributes.AttributeCount` models the node's, and is also what the way's
  `GetAttributeKey` compares against (`attributes.size()` at line 71).

Where this model follows the code rather than the intended design of the system:

- A `tag` is written into **both** open entities when a node and a way are open together:
  starting a way does not clear `currNode`, and starting a node does not clear `currWay`.
- The attribute maps are `unordered_map`s. Positional access (`GetAttributeKey`) therefore
  follows no insertion order.
- `NodeByID` and `WayByID` scan the vectors. With duplicate ids they return the **first**
  committed entity, not the last one.

Fresh entities come from `make_shared`, which value-initialises them: id 0, location
(0, 0), no attributes and no references. This assumes the base structs declared in
`OpenStreetMap.h` have no user-provided constructor. That header is not part of this model.

## Model

| member | source | states |
|---|---|---|
| `Numbers.ParseU64` | proj3/src/OpenStreetMap.cpp:113 | a converted id is below 2^64 and comes from non-empty text |
| `Numbers.ParseDecimalRoundTrip` | proj3/src/OpenStreetMap.cpp:113 | every 64-bit value, rendered in decimal and converted back, is itself |
| `Numbers.ParseRejectsNonDigit` | proj3/src/OpenStreetMap.cpp:113 | the digit-only conversion rejects any text holding a non-digit (stoull itself throws only when no leading digits convert, as for "abc") |
| `Attributes.AttributeCount` | proj3/src/OpenStreetMap.cpp:22-24 | definition: the number of keys; characterised by `Attributes.ReadAfterAssign` and bounding `Attributes.GetAttributeKey` |
| `Attributes.HasAttribute` | proj3/src/OpenStreetMap.cpp:37-43 | definition: key membership; characterised by `Attributes.ReadAfterAssign` and `Attributes.EmptyValueAmbiguous` |
| `Attributes.GetAttribute` | proj3/src/OpenStreetMap.cpp:45-52 | definition: the stored value or ""; characterised by `Attributes.ReadAfterAssign` and `Attributes.EmptyValueAmbiguous` |
| `Attributes.GetAttributeKey` | proj3/src/OpenStreetMap.cpp:26-35 | "" when `i >= AttributeCount()`, otherwise a key for which `HasAttribute` holds |
| `Attributes.ReadAfterAssign` | proj3/src/OpenStreetMap.cpp:37-52 | after `attributes[k] = v`: `HasAttribute(k)` holds, `GetAttribute(k)` is `v`, every other key reads as before, and the count grows by one exactly when `k` was new |
| `Attributes.EmptyValueAmbiguous` | proj3/src/OpenStreetMap.cpp:45-52 | an absent key reads as ""; a non-empty read implies presence; a present key can also read as "" |
| `Builder.Step` | proj3/src/OpenStreetMap.cpp:107-170 | one loop iteration; when it succeeds, each vector is either unchanged or has exactly the open entity of its kind appended; the per-event lemmas in `ParseProperties` state the rest |
| `Builder.Run` | proj3/src/OpenStreetMap.cpp:106-171 | definition: the reader loop, the first exception aborting it; characterised by `ParseProperties.RunCommits`, `ParseProperties.RunConcat` and `ParseProperties.RunKeepsIdsFit` |
| `Builder.Parse` | proj3/src/OpenStreetMap.cpp:101-104 | definition: the loop run from empty vectors with nothing open; characterised by `ParseProperties.CountsAreCloses` and the `Scenarios` lemmas |
| `StreetMap.ReadNode` | proj3/src/OpenStreetMap.cpp:109-121 | the loop over a start `node`'s attributes computes `ApplyNodeAttributes` from a fresh node, including the conversion errors |
| `StreetMap.ReadWay` | proj3/src/OpenStreetMap.cpp:124-132 | the loop over a start `way`'s attributes computes `ApplyWayAttributes` from a fresh way |
| `StreetMap.PushRefs` | proj3/src/OpenStreetMap.cpp:135-139 | the loop over an `nd`'s attributes computes `AppendRefs` on the open way |
| `StreetMap.ReadTag` | proj3/src/OpenStreetMap.cpp:141-151 | the loop over a `tag`'s attributes yields the `ScanTag` pair, starting from empty `k` and `v` |
| `StreetMap.OpenStreetMap.constructor` | proj3/src/OpenStreetMap.cpp:176 | a new implementation has no nodes and no ways |
| `StreetMap.OpenStreetMap.Parse` | proj3/src/OpenStreetMap.cpp:101-172 | fails with exactly the error that `Run` reports; on success the vectors are exactly those `Run` commits |
| `StreetMap.OpenStreetMap.Open` | proj3/src/OpenStreetMap.cpp:176-178 | construction yields a fresh store holding what `Parse` commits, or, when a conversion throws, that error and no store |
| `StreetMap.OpenStreetMap.NodeCount` | proj3/src/OpenStreetMap.cpp:184-186 | definition: the size of `nodes`; after construction it equals the closes counted by `ParseProperties.CountsAreCloses` |
| `StreetMap.OpenStreetMap.WayCount` | proj3/src/OpenStreetMap.cpp:189-191 | definition: the size of `ways`; after construction it equals the closes counted by `ParseProperties.CountsAreCloses` |
| `StreetMap.OpenStreetMap.NodeByIndex` | proj3/src/OpenStreetMap.cpp:194-199 | the node at `index` exactly when `index < NodeCount()`, and null otherwise |
| `StreetMap.OpenStreetMap.WayByIndex` | proj3/src/OpenStreetMap.cpp:212-217 | the way at `index` exactly when `index < WayCount()`, and null otherwise |
| `StreetMap.OpenStreetMap.NodeByID` | proj3/src/OpenStreetMap.cpp:202-209 | null iff no committed node has the id; otherwise the committed node with that id at the lowest index |
| `StreetMap.OpenStreetMap.WayByID` | proj3/src/OpenStreetMap.cpp:220-227 | null iff no committed way has the id; otherwise the committed way with that id at the lowest index |
| `AttributeLoops.NodeAttributesRead` | proj3/src/OpenStreetMap.cpp:111-121 | fails iff some `id` does not convert or some `lat`/`lon` does not convert; otherwise each field holds the conversion of the last attribute of its name, and every other name maps to its last value |
| `AttributeLoops.WayAttributesRead` | proj3/src/OpenStreetMap.cpp:126-132 | fails iff some `id` does not convert; otherwise the id is the conversion of the last `id`, the references are untouched, and every other name maps to its last value |
| `AttributeLoops.AppendRefsRead` | proj3/src/OpenStreetMap.cpp:135-139 | fails iff some `ref` does not convert; otherwise appends one id per `ref`, in order, keeps the earlier references, and ignores other attributes |
| `AttributeLoops.ScanTagReadsLast` | proj3/src/OpenStreetMap.cpp:141-151 | `k` and `v` are the values of the last `k` and last `v` attributes, each defaulting to what it was before |
| `ParseProperties.StartNodeStep` | proj3/src/OpenStreetMap.cpp:108-121 | a start `node` fails iff one of its `id`/`lat`/`lon` does not convert; otherwise it opens a node read only from its own attributes; the store and the open way are unchanged |
| `ParseProperties.SecondStartDropsOpenNode` | proj3/src/OpenStreetMap.cpp:108-109 | a node still open when another `node` starts has no effect on the outcome |
| `ParseProperties.StartWayStep` | proj3/src/OpenStreetMap.cpp:123-132 | a start `way` fails iff one of its `id`s does not convert; otherwise it opens a way read only from its own attributes; the store and the open node are unchanged |
| `ParseProperties.NdStep` | proj3/src/OpenStreetMap.cpp:134-139 | `nd` with no open way is a no-op; with one, it fails iff a `ref` does not convert, and otherwise appends the refs to the open way only |
| `ParseProperties.TagStep` | proj3/src/OpenStreetMap.cpp:140-160 | a `tag` never fails; an empty or missing `k` changes nothing; otherwise `attributes[k] = v` is written into every open entity (way, node, or both), with `v` defaulting to "" |
| `ParseProperties.EndStep` | proj3/src/OpenStreetMap.cpp:162-169 | an end `node` with a node open appends exactly that node and clears it; the same holds for `way`; any other end element is a no-op |
| `ParseProperties.UnrecognisedIgnored` | proj3/src/OpenStreetMap.cpp:107-170 | other start elements and non-element entities change nothing |
| `ParseProperties.RunCommits` | proj3/src/OpenStreetMap.cpp:162-169 | over any stretch of events, the vectors only grow at their ends, by one entity per end event met while an entity of that kind was open |
| `ParseProperties.CountsAreCloses` | proj3/src/OpenStreetMap.cpp:184-191 | `NodeCount`/`WayCount` after parsing equal the number of end `node`/`way` events met while one was open |
| `ParseProperties.NoStartsNoEntities` | proj3/src/OpenStreetMap.cpp:184-191 | a stream with no start `node` (`way`) commits no node (way) |
| `ParseProperties.UnclosedNodeDropped` | proj3/src/OpenStreetMap.cpp:103-172 | a node started and never closed before the events run out is not in the store |
| `ParseProperties.UnclosedWayDropped` | proj3/src/OpenStreetMap.cpp:103-172 | a way started and never closed before the events run out is not in the store |
| `ParseProperties.RunKeepsIdsFit` | proj3/src/OpenStreetMap.cpp:106-171 | all ids and node references held by the builder stay below 2^64 |
| `Scenarios.OneTaggedNode` | proj3/src/OpenStreetMap.cpp:101-172 | a node with id, lat, lon and one tag parses to exactly that one node |
| `Scenarios.OneWayWithRefs` | proj3/src/OpenStreetMap.cpp:101-172 | a way with refs 1 and 2 and one tag parses to exactly that one way |
| `Scenarios.NonNumericIdFails` | proj3/src/OpenStreetMap.cpp:113 | a node id "abc" aborts the whole parse, whatever follows |
| `Scenarios.StrayNdIgnored` | proj3/src/OpenStreetMap.cpp:134 | an `nd` with no way open is skipped, and its `ref` is never converted |
| `Scenarios.EmptyStream` | proj3/src/OpenStreetMap.cpp:106 | no events build the empty store |
| `Scenarios.NodeInsideWay` | proj3/src/OpenStreetMap.cpp:140-169 | a tag met while a node sits inside an open way goes to both; a tag after the node closes goes to the way only |

## Left out

- The XML reader (`CXMLReader::ReadEntity` and the `SXMLEntity` tokenising) is an external
  collaborator. Its output is the input sequence of `XmlEntity` values. It is not part of
  this model, so a reader failure that ends the stream early is not modelled either.
- Entity kinds other than start and end elements are collapsed into `Other`. The parser
  ignores all of them.
- `std::stod` is not modelled. `lat` and `lon` text is converted by a function the caller
  supplies (`parseDouble`), and `None` from it stands for the exception. Doubles are
  modelled as reals.
- `Numbers.ParseU64`: a plain decimal-digit parser bounded by 2^64. It does not model what
  `std::stoull` also accepts: leading white space, a sign (with wrap-around for negative
  values), and trailing non-digits after the number.
- Every conversion exception is modelled as aborting the whole construction with no store
  (`Open` returns `Err`). Which exception type is thrown is reduced to `InvalidInteger` or
  `InvalidDouble` with the offending text. Allocation failures are not modelled.
- `shared_ptr`/`unique_ptr` ownership is not modelled; entities are values. This loses
  nothing: an entity is changed only through `currNode`/`currWay`, and those are cleared as
  soon as the entity is committed.
- `Attributes.GetAttributeKey`: it states only that an in-range index gives some key of the
  map. The iteration order of an `unordered_map` is unspecified, so the walk chooses each
  next key nondeterministically, and it does so afresh on every call. Two calls are
  therefore unrelated: the model does not state that the order is the same from call to
  call, or that distinct indices give distinct keys.
- `NodeByID`/`WayByID` take an unbounded `nat` rather than a 64-bit id. Committed ids
  always fit in 64 bits (`RunKeepsIdsFit`), so larger arguments simply find nothing.
- The destructor and the pimpl indirection (`DImplementation`) are not modelled.
- Access control is not modelled. In the source, `parse` and the vectors are private to
  `SImplementation`, and the store is read-only once constructed. In the model, `nodes`
  and `ways` are public fields, and `Parse` could be called again on a built store. Only
  `Open` runs it, once, on a fresh object.
