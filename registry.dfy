/**
 * The node-type registry as a function of its state: the cache of loaded node
 * types (`loadedNodes`), the catalogue of known but not yet loaded ones
 * (`knownNodes`), and the foreign helpers it calls. Each operation yields its
 * result, the cache after it, and the class loads it performed.
 */
module Registry {
  import opened Wrappers
  import opened NodeNames

  /** A node version number, only ever passed through to the version resolver. */
  type Version = real

  /** A node type description. `attributes` stands for every other field. */
  datatype Description = Description(
    name: string,
    usableAsTool: bool,
    properties: seq<string>,
    attributes: map<string, string>)

  /**
   * A node type object: a concrete node type or a container of versions (which
   * kind is a static typing matter in the source). `implementation` stands for
   * its behaviour and, for a container, its versions.
   */
  datatype NodeType = NodeType(description: Description, implementation: nat)

  /** A cache entry. */
  datatype LoadedClass = LoadedClass(sourcePath: string, nodeType: NodeType)

  /** A catalogue entry: where the class lives and what it is called. */
  datatype KnownNode = KnownNode(className: string, sourcePath: string)

  /** One call made to the isolated class loader. */
  datatype Load = Load(sourcePath: string, className: string)

  /** One element of a batch description request. */
  datatype NeededNodeType = NeededNodeType(name: string, version: Version)

  datatype SourcedDescription = SourcedDescription(description: Description, sourcePath: string)

  datatype NodeTypeError =
    | UnrecognizedNodeType(nodeType: string)  // in neither the cache nor the catalogue
    | NotUsableAsTool(nodeType: string)       // tool requested for a node that cannot be one

  /** The foreign helpers, left uninterpreted. */
  datatype Helpers = Helpers(
    loadClassInIsolation: (string, string) -> NodeType,
    getVersionedNodeType: (NodeType, Option<Version>) -> NodeType,
    applySpecialNodeParameters: NodeType -> NodeType,
    convertNodeToAiTool: NodeType -> NodeType)

  /** What an operation yields: its outcome, the cache afterwards, the loads it made. */
  datatype Step<T> = Step(result: Result<T, NodeTypeError>, loaded: map<string, LoadedClass>, loads: seq<Load>)

  /** Every entry of `before` is still in `after`, unchanged. */
  predicate Extends(before: map<string, LoadedClass>, after: map<string, LoadedClass>) {
    forall k :: k in before ==> k in after && after[k] == before[k]
  }

  /** `getNode`: cache first, then a one-time load from the catalogue, else an error. */
  function Lookup(h: Helpers, loaded: map<string, LoadedClass>, known: map<string, KnownNode>,
                  nodeType: string): (r: Step<LoadedClass>)
    ensures r.result.Ok? <==> nodeType in loaded || nodeType in known
    ensures r.result.Err? ==> r.result.error == UnrecognizedNodeType(nodeType)
    ensures r.result.Ok? ==> nodeType in r.loaded && r.loaded[nodeType] == r.result.value
    ensures nodeType in loaded ==> r.loaded == loaded && r.loads == []
    ensures nodeType !in loaded && nodeType in known ==>
      && r.loads == [Load(known[nodeType].sourcePath, known[nodeType].className)]
      && r.result.value.sourcePath == known[nodeType].sourcePath
      && r.result.value.nodeType
         == h.applySpecialNodeParameters(h.loadClassInIsolation(known[nodeType].sourcePath, known[nodeType].className))
    ensures r.result.Err? ==> r.loaded == loaded && r.loads == []
    ensures r.loaded.Keys == loaded.Keys + (if r.result.Ok? then {nodeType} else {})
    ensures Extends(loaded, r.loaded)
  {
    if nodeType in loaded then Step(Ok(loaded[nodeType]), loaded, [])
    else if nodeType in known then
      var k := known[nodeType];
      var instance := h.applySpecialNodeParameters(h.loadClassInIsolation(k.sourcePath, k.className));
      var entry := LoadedClass(k.sourcePath, instance);
      Step(Ok(entry), loaded[nodeType := entry], [Load(k.sourcePath, k.className)])
    else Step(Err(UnrecognizedNodeType(nodeType)), loaded, [])
  }

  /** A second lookup of a name that resolved returns the identical entry and loads nothing. */
  lemma LookupRepeat(h: Helpers, loaded: map<string, LoadedClass>, known: map<string, KnownNode>,
                     nodeType: string)
    requires Lookup(h, loaded, known, nodeType).result.Ok?
    ensures var first := Lookup(h, loaded, known, nodeType);
            var second := Lookup(h, first.loaded, known, nodeType);
            second == Step(first.result, first.loaded, [])
  {
  }

  /** `getByName`: the node type object of the resolved entry. */
  function LookupByName(h: Helpers, loaded: map<string, LoadedClass>, known: map<string, KnownNode>,
                        nodeType: string): (r: Step<NodeType>)
    ensures var s := Lookup(h, loaded, known, nodeType);
      && r.loaded == s.loaded && r.loads == s.loads
      && (r.result.Ok? <==> s.result.Ok?)
      && (r.result.Ok? ==> r.result.value == s.loaded[nodeType].nodeType)
      && (r.result.Err? ==> r.result.error == UnrecognizedNodeType(nodeType))
  {
    var s := Lookup(h, loaded, known, nodeType);
    match s.result
    case Err(e) => Step(Err(e), s.loaded, s.loads)
    case Ok(entry) => Step(Ok(entry.nodeType), s.loaded, s.loads)
  }

  /** `getWithSourcePath`: a copy of the versioned description and the entry's source path. */
  function LookupWithSourcePath(h: Helpers, loaded: map<string, LoadedClass>, known: map<string, KnownNode>,
                                nodeType: string, version: Version): (r: Step<SourcedDescription>)
    ensures var s := Lookup(h, loaded, known, nodeType);
      && r.loaded == s.loaded && r.loads == s.loads
      && (r.result.Ok? <==> nodeType in loaded || nodeType in known)
      && (r.result.Err? ==> r.result.error == UnrecognizedNodeType(nodeType))
      && (r.result.Ok? ==>
            && r.result.value.sourcePath == r.loaded[nodeType].sourcePath
            && r.result.value.description
               == h.getVersionedNodeType(r.loaded[nodeType].nodeType, Some(version)).description)
  {
    var s := Lookup(h, loaded, known, nodeType);
    match s.result
    case Err(e) => Step(Err(e), s.loaded, s.loads)
    case Ok(entry) =>
      var versioned := h.getVersionedNodeType(entry.nodeType, Some(version));
      Step(Ok(SourcedDescription(versioned.description, entry.sourcePath)), s.loaded, s.loads)
  }

  /** The source path reported for a catalogue-only name is the catalogue's. */
  lemma SourcePathOfCatalogueEntry(h: Helpers, loaded: map<string, LoadedClass>,
                                   known: map<string, KnownNode>, nodeType: string, version: Version)
    requires nodeType !in loaded && nodeType in known
    ensures LookupWithSourcePath(h, loaded, known, nodeType, version).result
            == Ok(SourcedDescription(
                 h.getVersionedNodeType(
                   h.applySpecialNodeParameters(
                     h.loadClassInIsolation(known[nodeType].sourcePath, known[nodeType].className)),
                   Some(version)).description,
                 known[nodeType].sourcePath))
  {
  }

  /** The name that is looked up for a request. */
  function BaseName(nodeType: string): (base: string)
    ensures IsToolRequest(nodeType) ==> base + ToolSuffix == nodeType && StartsWith(base, BasePackage)
    ensures !IsToolRequest(nodeType) ==> base == nodeType
  {
    if IsToolRequest(nodeType) then
      ToolBaseInBasePackage(nodeType);
      StripToolSuffix(nodeType)
    else nodeType
  }

  /** `getByNameAndVersion`: the versioned node type, or for a tool request its tool variant. */
  function LookupVersioned(h: Helpers, loaded: map<string, LoadedClass>, known: map<string, KnownNode>,
                           nodeType: string, version: Option<Version>): (r: Step<NodeType>)
    ensures var s := Lookup(h, loaded, known, BaseName(nodeType));
      && r.loads == s.loads
      && (s.result.Err? ==> r.result == Err(s.result.error) && r.loaded == s.loaded)
    ensures Extends(loaded, r.loaded)
    ensures r.loaded.Keys <= loaded.Keys + {BaseName(nodeType), nodeType}
  {
    var toolRequested := IsToolRequest(nodeType);
    var base := BaseName(nodeType);
    var s := Lookup(h, loaded, known, base);
    match s.result
    case Err(e) => Step(Err(e), s.loaded, s.loads)
    case Ok(node) =>
      var versioned := h.getVersionedNodeType(node.nodeType, version);
      if !toolRequested then Step(Ok(versioned), s.loaded, s.loads)
      else if !versioned.description.usableAsTool then Step(Err(NotUsableAsTool(base)), s.loaded, s.loads)
      else if nodeType in s.loaded then Step(Ok(s.loaded[nodeType].nodeType), s.loaded, s.loads)
      else
        var tool := h.convertNodeToAiTool(versioned);
        Step(Ok(tool), s.loaded[base + ToolSuffix := LoadedClass("", tool)], s.loads)
  }

  /** A name that merely ends in `Tool`, outside the base package, is looked up as it is. */
  lemma UnprefixedToolNameKept(nodeType: string)
    requires EndsWith(nodeType, ToolSuffix) && !StartsWith(nodeType, BasePackage)
    ensures BaseName(nodeType) == nodeType
  {
  }

  /** A plain request resolves the version of the looked-up node and writes nothing but its load. */
  lemma PlainRequest(h: Helpers, loaded: map<string, LoadedClass>, known: map<string, KnownNode>,
                     nodeType: string, version: Option<Version>)
    requires !IsToolRequest(nodeType)
    ensures var s := Lookup(h, loaded, known, nodeType);
            var r := LookupVersioned(h, loaded, known, nodeType, version);
      && r.loaded == s.loaded && r.loads == s.loads
      && (s.result.Ok? ==> r.result == Ok(h.getVersionedNodeType(s.result.value.nodeType, version)))
      && (s.result.Err? ==> r.result == Err(UnrecognizedNodeType(nodeType)))
  {
  }

  /**
   * A tool request whose base, at the requested version, is not usable as a tool
   * fails and adds no entry under the tool name (only the base may have been loaded).
   */
  lemma ToolRequestNotUsable(h: Helpers, loaded: map<string, LoadedClass>, known: map<string, KnownNode>,
                             nodeType: string, version: Option<Version>)
    requires IsToolRequest(nodeType)
    requires var s := Lookup(h, loaded, known, StripToolSuffix(nodeType));
      s.result.Ok? && !h.getVersionedNodeType(s.result.value.nodeType, version).description.usableAsTool
    ensures var base := StripToolSuffix(nodeType);
            var s := Lookup(h, loaded, known, base);
            var r := LookupVersioned(h, loaded, known, nodeType, version);
      && r.result == Err(NotUsableAsTool(base))
      && r.loaded == s.loaded
      && (nodeType in r.loaded <==> nodeType in loaded)
  {
    ToolBaseInBasePackage(nodeType);
  }

  /**
   * A tool request succeeds exactly when its base resolves and, at the requested
   * version, is usable as a tool: past the flag test it always returns a tool.
   */
  lemma ToolRequestSucceeds(h: Helpers, loaded: map<string, LoadedClass>, known: map<string, KnownNode>,
                            nodeType: string, version: Option<Version>)
    requires IsToolRequest(nodeType)
    ensures var s := Lookup(h, loaded, known, StripToolSuffix(nodeType));
      LookupVersioned(h, loaded, known, nodeType, version).result.Ok? <==>
        s.result.Ok? && h.getVersionedNodeType(s.result.value.nodeType, version).description.usableAsTool
  {
    ToolBaseInBasePackage(nodeType);
  }

  /**
   * A tool request whose base resolves and is usable as a tool returns a tool and
   * leaves it under the request's own name, the base entry and every other entry
   * untouched, and adds no other key.
   */
  lemma ToolRequestCachesTool(h: Helpers, loaded: map<string, LoadedClass>, known: map<string, KnownNode>,
                              nodeType: string, version: Option<Version>)
    requires IsToolRequest(nodeType)
    requires var s := Lookup(h, loaded, known, StripToolSuffix(nodeType));
      s.result.Ok? && h.getVersionedNodeType(s.result.value.nodeType, version).description.usableAsTool
    ensures var base := StripToolSuffix(nodeType);
            var s := Lookup(h, loaded, known, base);
            var r := LookupVersioned(h, loaded, known, nodeType, version);
      && r.result.Ok?
      && nodeType in r.loaded && r.loaded[nodeType].nodeType == r.result.value
      && Extends(s.loaded, r.loaded)
      && r.loaded.Keys == s.loaded.Keys + {nodeType}
      && base in r.loaded && r.loaded[base] == s.result.value
      && (nodeType in loaded ==> r.result.value == loaded[nodeType].nodeType && r.loaded == s.loaded)
      && (nodeType !in loaded ==>
            r.loaded[nodeType] == LoadedClass("",
              h.convertNodeToAiTool(h.getVersionedNodeType(s.result.value.nodeType, version))))
  {
    ToolBaseInBasePackage(nodeType);
  }

  /**
   * Repeating a successful tool request, with any version, loads nothing and
   * writes nothing; it returns the same tool whenever the base at that version is
   * usable as a tool, and fails otherwise (the flag is checked before the cache).
   */
  lemma ToolRequestRepeat(h: Helpers, loaded: map<string, LoadedClass>, known: map<string, KnownNode>,
                          nodeType: string, version: Option<Version>, again: Option<Version>)
    requires IsToolRequest(nodeType)
    requires LookupVersioned(h, loaded, known, nodeType, version).result.Ok?
    ensures var base := StripToolSuffix(nodeType);
            var first := LookupVersioned(h, loaded, known, nodeType, version);
            var second := LookupVersioned(h, first.loaded, known, nodeType, again);
      && base in first.loaded
      && second.loads == [] && second.loaded == first.loaded
      && (h.getVersionedNodeType(first.loaded[base].nodeType, again).description.usableAsTool ==>
            second.result == first.result)
      && (!h.getVersionedNodeType(first.loaded[base].nodeType, again).description.usableAsTool ==>
            second.result == Err(NotUsableAsTool(base)))
  {
    ToolRequestSucceeds(h, loaded, known, nodeType, version);
    ToolRequestCachesTool(h, loaded, known, nodeType, version);
  }

  /** After a tool request the base still resolves to the entry it resolved to, without a load. */
  lemma BaseUnaffectedByTool(h: Helpers, loaded: map<string, LoadedClass>, known: map<string, KnownNode>,
                             nodeType: string, version: Option<Version>)
    requires IsToolRequest(nodeType)
    requires Lookup(h, loaded, known, StripToolSuffix(nodeType)).result.Ok?
    ensures var base := StripToolSuffix(nodeType);
            var r := LookupVersioned(h, loaded, known, nodeType, version);
            var again := Lookup(h, r.loaded, known, base);
      again == Step(Lookup(h, loaded, known, base).result, r.loaded, [])
  {
    ToolBaseInBasePackage(nodeType);
  }

  /** The exported copy of a description: only its name is normalised. */
  function NormalizeDescription(d: Description): (r: Description)
    ensures r.name == NormalizeName(d.name)
    ensures r.(name := d.name) == d
  {
    d.(name := NormalizeName(d.name))
  }

  /**
   * `getNodeTypeDescriptions`: the requests in order; the first unknown name aborts
   * the batch, keeping the loads made for the requests before it.
   */
  function DescribeAll(h: Helpers, loaded: map<string, LoadedClass>, known: map<string, KnownNode>,
                       requests: seq<NeededNodeType>): (r: Step<seq<Description>>)
    ensures Extends(loaded, r.loaded)
    ensures r.loaded.Keys + known.Keys == loaded.Keys + known.Keys
    ensures requests == [] ==> r == Step(Ok([]), loaded, [])
    decreases |requests|
  {
    if requests == [] then Step(Ok([]), loaded, [])
    else
      var s := Lookup(h, loaded, known, requests[0].name);
      match s.result
      case Err(e) => Step(Err(e), s.loaded, s.loads)
      case Ok(entry) =>
        var d := NormalizeDescription(h.getVersionedNodeType(entry.nodeType, Some(requests[0].version)).description);
        var rest := DescribeAll(h, s.loaded, known, requests[1..]);
        match rest.result
        case Err(e) => Step(Err(e), rest.loaded, s.loads + rest.loads)
        case Ok(ds) => Step(Ok([d] + ds), rest.loaded, s.loads + rest.loads)
  }

  /** The names a batch asks for. */
  function RequestedNames(requests: seq<NeededNodeType>): set<string> {
    set i | 0 <= i < |requests| :: requests[i].name
  }

  /** Every entry of `after` that is not in `before` is a fresh load of its catalogue entry. */
  predicate LoadedFromCatalogue(h: Helpers, known: map<string, KnownNode>,
                                before: map<string, LoadedClass>, after: map<string, LoadedClass>) {
    forall k :: k in after && k !in before ==>
      && k in known
      && after[k] == LoadedClass(known[k].sourcePath,
                                 h.applySpecialNodeParameters(h.loadClassInIsolation(known[k].sourcePath, known[k].className)))
  }

  /** A batch adds entries only for names it asks for, each loaded from the catalogue. */
  lemma {:induction false} DescribeAllAddsOnlyRequested(h: Helpers, loaded: map<string, LoadedClass>,
                                                        known: map<string, KnownNode>, requests: seq<NeededNodeType>)
    ensures var r := DescribeAll(h, loaded, known, requests);
      && r.loaded.Keys <= loaded.Keys + RequestedNames(requests)
      && LoadedFromCatalogue(h, known, loaded, r.loaded)
    decreases |requests|
  {
    if requests != [] {
      var s := Lookup(h, loaded, known, requests[0].name);
      DescribeAllUnfold(h, loaded, known, requests);
      if s.result.Ok? {
        var r := DescribeAll(h, loaded, known, requests);
        DescribeAllAddsOnlyRequested(h, s.loaded, known, requests[1..]);
        assert RequestedNames(requests[1..]) <= RequestedNames(requests) by {
          forall i | 0 <= i < |requests[1..]| ensures requests[1..][i].name in RequestedNames(requests) {
            assert requests[1..][i] == requests[i + 1];
          }
        }
        assert requests[0].name in RequestedNames(requests);
        forall k | k in r.loaded && k !in loaded
          ensures k in known
          ensures r.loaded[k] == LoadedClass(known[k].sourcePath,
                                             h.applySpecialNodeParameters(h.loadClassInIsolation(known[k].sourcePath, known[k].className)))
        {
          if k in s.loaded {
            assert k == requests[0].name;
          }
        }
      }
    }
  }

  /** A name the batch can resolve. */
  predicate Resolvable(loaded: map<string, LoadedClass>, known: map<string, KnownNode>, nodeType: string) {
    nodeType in loaded || nodeType in known
  }

  /** The batch succeeds exactly when every requested name is cached or catalogued. */
  lemma {:induction false} DescribeAllSucceedsIff(h: Helpers, loaded: map<string, LoadedClass>,
                                                  known: map<string, KnownNode>, requests: seq<NeededNodeType>)
    ensures DescribeAll(h, loaded, known, requests).result.Ok? <==>
      forall i :: 0 <= i < |requests| ==> Resolvable(loaded, known, requests[i].name)
    decreases |requests|
  {
    if requests != [] {
      var s := Lookup(h, loaded, known, requests[0].name);
      if s.result.Ok? {
        DescribeAllSucceedsIff(h, s.loaded, known, requests[1..]);
        assert forall n :: Resolvable(s.loaded, known, n) <==> Resolvable(loaded, known, n);
        assert forall i :: 1 <= i < |requests| ==> requests[i] == requests[1..][i - 1];
      }
    }
  }

  /** A failed batch reports the first name that is neither cached nor catalogued. */
  lemma {:induction false} DescribeAllFailsAtFirstUnknown(h: Helpers, loaded: map<string, LoadedClass>,
                                                          known: map<string, KnownNode>,
                                                          requests: seq<NeededNodeType>, j: nat)
    requires j < |requests| && !Resolvable(loaded, known, requests[j].name)
    requires forall i :: 0 <= i < j ==> Resolvable(loaded, known, requests[i].name)
    ensures DescribeAll(h, loaded, known, requests).result == Err(UnrecognizedNodeType(requests[j].name))
    decreases j
  {
    if j > 0 {
      var s := Lookup(h, loaded, known, requests[0].name);
      assert forall n :: Resolvable(s.loaded, known, n) <==> Resolvable(loaded, known, n);
      assert forall i :: 1 <= i < |requests| ==> requests[i] == requests[1..][i - 1];
      DescribeAllFailsAtFirstUnknown(h, s.loaded, known, requests[1..], j - 1);
    }
  }

  /**
   * A successful batch has one description per request, in order: the normalised
   * copy of the versioned description of the entry the request's name resolves to.
   */
  lemma {:induction false} DescribeAllDescriptions(h: Helpers, loaded: map<string, LoadedClass>,
                                                   known: map<string, KnownNode>, requests: seq<NeededNodeType>)
    requires DescribeAll(h, loaded, known, requests).result.Ok?
    ensures var r := DescribeAll(h, loaded, known, requests);
      && |r.result.value| == |requests|
      && forall i :: 0 <= i < |requests| ==>
           && requests[i].name in r.loaded
           && r.result.value[i] == NormalizeDescription(
                h.getVersionedNodeType(r.loaded[requests[i].name].nodeType, Some(requests[i].version)).description)
    decreases |requests|
  {
    if requests != [] {
      var s := Lookup(h, loaded, known, requests[0].name);
      var rest := DescribeAll(h, s.loaded, known, requests[1..]);
      DescribeAllDescriptions(h, s.loaded, known, requests[1..]);
      assert forall i :: 1 <= i < |requests| ==> requests[i] == requests[1..][i - 1];
    }
  }

  /** Every exported name is in an `n8n-nodes` package, so normalising it again changes nothing. */
  lemma DescribeAllNamesNormalized(h: Helpers, loaded: map<string, LoadedClass>,
                                   known: map<string, KnownNode>, requests: seq<NeededNodeType>)
    requires DescribeAll(h, loaded, known, requests).result.Ok?
    ensures var ds := DescribeAll(h, loaded, known, requests).result.value;
      forall i :: 0 <= i < |ds| ==> StartsWith(ds[i].name, PackagePrefix) && NormalizeName(ds[i].name) == ds[i].name
  {
    DescribeAllDescriptions(h, loaded, known, requests);
  }

  /**
   * The batch outcome when `done` are the descriptions already made, `doneLoads`
   * the loads made for them, and `rest` the outcome for the remaining requests.
   */
  function Continue(done: seq<Description>, doneLoads: seq<Load>, rest: Step<seq<Description>>): Step<seq<Description>> {
    match rest.result
    case Err(e) => Step(Err(e), rest.loaded, doneLoads + rest.loads)
    case Ok(ds) => Step(Ok(done + ds), rest.loaded, doneLoads + rest.loads)
  }

  /** Nothing done yet: the outcome is that of the remaining requests. */
  lemma ContinueFromStart(rest: Step<seq<Description>>)
    ensures Continue([], [], rest) == rest
  {
    assert [] + rest.loads == rest.loads;
    if rest.result.Ok? {
      assert [] + rest.result.value == rest.result.value;
    }
  }

  /** One step of the batch: the first request, then the rest from the cache it leaves. */
  lemma DescribeAllUnfold(h: Helpers, loaded: map<string, LoadedClass>, known: map<string, KnownNode>,
                          requests: seq<NeededNodeType>)
    requires |requests| > 0
    ensures var s := Lookup(h, loaded, known, requests[0].name);
            var r := DescribeAll(h, loaded, known, requests);
      && (s.result.Err? ==> r == Step(Err(s.result.error), loaded, []))
      && (s.result.Ok? ==>
            var d := NormalizeDescription(h.getVersionedNodeType(s.result.value.nodeType,
                                                                 Some(requests[0].version)).description);
            var rest := DescribeAll(h, s.loaded, known, requests[1..]);
            && r.loaded == rest.loaded && r.loads == s.loads + rest.loads
            && (rest.result.Err? ==> r.result == rest.result)
            && (rest.result.Ok? ==> r.result == Ok([d] + rest.result.value)))
  {
  }

  /** A first request that fails ends the batch with its error and the loads done so far. */
  lemma ContinueStepErr(h: Helpers, loaded: map<string, LoadedClass>, known: map<string, KnownNode>,
                        requests: seq<NeededNodeType>, done: seq<Description>, doneLoads: seq<Load>)
    requires |requests| > 0
    requires Lookup(h, loaded, known, requests[0].name).result.Err?
    ensures Continue(done, doneLoads, DescribeAll(h, loaded, known, requests))
         == Step(Err(Lookup(h, loaded, known, requests[0].name).result.error), loaded, doneLoads)
  {
    DescribeAllUnfold(h, loaded, known, requests);
    assert doneLoads + [] == doneLoads;
  }

  /** A first request that succeeds moves from the remaining requests to the done ones. */
  lemma ContinueStepOk(h: Helpers, loaded: map<string, LoadedClass>, known: map<string, KnownNode>,
                       requests: seq<NeededNodeType>, done: seq<Description>, doneLoads: seq<Load>)
    requires |requests| > 0
    requires Lookup(h, loaded, known, requests[0].name).result.Ok?
    ensures var s := Lookup(h, loaded, known, requests[0].name);
      Continue(done, doneLoads, DescribeAll(h, loaded, known, requests))
      == Continue(done + [NormalizeDescription(h.getVersionedNodeType(s.result.value.nodeType,
                                                                      Some(requests[0].version)).description)],
                  doneLoads + s.loads,
                  DescribeAll(h, s.loaded, known, requests[1..]))
  {
    var s := Lookup(h, loaded, known, requests[0].name);
    var d := NormalizeDescription(h.getVersionedNodeType(s.result.value.nodeType, Some(requests[0].version)).description);
    var rest := DescribeAll(h, s.loaded, known, requests[1..]);
    DescribeAllUnfold(h, loaded, known, requests);
    assert doneLoads + (s.loads + rest.loads) == doneLoads + s.loads + rest.loads;
    if rest.result.Ok? {
      assert done + ([d] + rest.result.value) == done + [d] + rest.result.value;
    }
  }

  /** `ContinueStep` for request `i` of a batch, as a loop over the batch uses it. */
  lemma ContinueStepAt(h: Helpers, loaded: map<string, LoadedClass>, known: map<string, KnownNode>,
                       requests: seq<NeededNodeType>, i: nat, done: seq<Description>, doneLoads: seq<Load>)
    requires i < |requests|
    ensures var s := Lookup(h, loaded, known, requests[i].name);
            var whole := Continue(done, doneLoads, DescribeAll(h, loaded, known, requests[i..]));
      && (s.result.Err? ==> whole == Step(Err(s.result.error), loaded, doneLoads))
      && (s.result.Ok? ==>
            whole == Continue(
              done + [NormalizeDescription(h.getVersionedNodeType(s.result.value.nodeType,
                                                                  Some(requests[i].version)).description)],
              doneLoads + s.loads,
              DescribeAll(h, s.loaded, known, requests[i + 1..])))
  {
    assert requests[i..][0] == requests[i] && requests[i..][1..] == requests[i + 1..];
    if Lookup(h, loaded, known, requests[i].name).result.Ok? {
      ContinueStepOk(h, loaded, known, requests[i..], done, doneLoads);
    } else {
      ContinueStepErr(h, loaded, known, requests[i..], done, doneLoads);
    }
  }
}
