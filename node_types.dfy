/**
 * The `NodeTypes` service: a class holding a reference to the loading
 * subsystem's shared maps, whose methods read and extend the cache in place.
 * Each method is proved equal to its function in `Registry`.
 */
module NodeTypesService {
  import opened Wrappers
  import opened NodeNames
  import opened Registry

  /** The loading subsystem's maps, shared with the registry by reference. */
  class LoadNodesAndCredentials {
    var loadedNodes: map<string, LoadedClass>
    var knownNodes: map<string, KnownNode>

    constructor (knownNodes: map<string, KnownNode>, loadedNodes: map<string, LoadedClass>)
      ensures this.knownNodes == knownNodes && this.loadedNodes == loadedNodes
    {
      this.knownNodes := knownNodes;
      this.loadedNodes := loadedNodes;
    }
  }

  class NodeTypes {
    const loadNodesAndCredentials: LoadNodesAndCredentials
    const helpers: Helpers
    /** Every call made to the isolated class loader, in order. */
    ghost var loadLog: seq<Load>

    constructor (loadNodesAndCredentials: LoadNodesAndCredentials, helpers: Helpers)
      ensures this.loadNodesAndCredentials == loadNodesAndCredentials && this.helpers == helpers
      ensures loadLog == []
    {
      this.loadNodesAndCredentials := loadNodesAndCredentials;
      this.helpers := helpers;
      loadLog := [];
    }

    /** The catalogue of known types, which no method of this class changes. */
    method GetKnownTypes() returns (known: map<string, KnownNode>)
      ensures known == loadNodesAndCredentials.knownNodes
    {
      known := loadNodesAndCredentials.knownNodes;
    }

    method GetNode(nodeType: string) returns (r: Result<LoadedClass, NodeTypeError>)
      modifies loadNodesAndCredentials`loadedNodes, this`loadLog
      ensures var s := Lookup(helpers, old(loadNodesAndCredentials.loadedNodes),
                              loadNodesAndCredentials.knownNodes, nodeType);
        r == s.result && loadNodesAndCredentials.loadedNodes == s.loaded && loadLog == old(loadLog) + s.loads
    {
      var loadedNodes := loadNodesAndCredentials.loadedNodes;
      var knownNodes := loadNodesAndCredentials.knownNodes;
      if nodeType in loadedNodes {
        return Ok(loadedNodes[nodeType]);
      }
      if nodeType in knownNodes {
        var KnownNode(className, sourcePath) := knownNodes[nodeType];
        var loaded := helpers.loadClassInIsolation(sourcePath, className);
        loadLog := loadLog + [Load(sourcePath, className)];
        loaded := helpers.applySpecialNodeParameters(loaded);
        loadNodesAndCredentials.loadedNodes := loadedNodes[nodeType := LoadedClass(sourcePath, loaded)];
        return Ok(loadNodesAndCredentials.loadedNodes[nodeType]);
      }
      return Err(UnrecognizedNodeType(nodeType));
    }

    method GetByName(nodeType: string) returns (r: Result<NodeType, NodeTypeError>)
      modifies loadNodesAndCredentials`loadedNodes, this`loadLog
      ensures var s := LookupByName(helpers, old(loadNodesAndCredentials.loadedNodes),
                                    loadNodesAndCredentials.knownNodes, nodeType);
        r == s.result && loadNodesAndCredentials.loadedNodes == s.loaded && loadLog == old(loadLog) + s.loads
    {
      var node := GetNode(nodeType);
      if node.Err? {
        return Err(node.error);
      }
      return Ok(node.value.nodeType);
    }

    method GetWithSourcePath(nodeTypeName: string, version: Version) returns (r: Result<SourcedDescription, NodeTypeError>)
      modifies loadNodesAndCredentials`loadedNodes, this`loadLog
      ensures var s := LookupWithSourcePath(helpers, old(loadNodesAndCredentials.loadedNodes),
                                            loadNodesAndCredentials.knownNodes, nodeTypeName, version);
        r == s.result && loadNodesAndCredentials.loadedNodes == s.loaded && loadLog == old(loadLog) + s.loads
    {
      var nodeType := GetNode(nodeTypeName);
      if nodeType.Err? {
        return Err(nodeType.error);
      }
      var description := helpers.getVersionedNodeType(nodeType.value.nodeType, Some(version)).description;
      return Ok(SourcedDescription(description, nodeType.value.sourcePath));
    }

    method GetByNameAndVersion(nodeType: string, version: Option<Version>) returns (r: Result<NodeType, NodeTypeError>)
      modifies loadNodesAndCredentials`loadedNodes, this`loadLog
      ensures var s := LookupVersioned(helpers, old(loadNodesAndCredentials.loadedNodes),
                                       loadNodesAndCredentials.knownNodes, nodeType, version);
        r == s.result && loadNodesAndCredentials.loadedNodes == s.loaded && loadLog == old(loadLog) + s.loads
    {
      var origType := nodeType;
      var toolRequested := StartsWith(nodeType, BasePackage) && EndsWith(nodeType, ToolSuffix);
      var name := nodeType;
      if toolRequested {
        name := StripToolSuffix(nodeType);
      }
      var node := GetNode(name);
      if node.Err? {
        return Err(node.error);
      }
      var versionedNodeType := helpers.getVersionedNodeType(node.value.nodeType, version);
      if !toolRequested {
        return Ok(versionedNodeType);
      }
      if !versionedNodeType.description.usableAsTool {
        return Err(NotUsableAsTool(name));
      }
      var loadedNodes := loadNodesAndCredentials.loadedNodes;
      if origType in loadedNodes {
        return Ok(loadedNodes[origType].nodeType);
      }
      var tool := helpers.convertNodeToAiTool(versionedNodeType);
      loadNodesAndCredentials.loadedNodes := loadedNodes[name + ToolSuffix := LoadedClass("", tool)];
      return Ok(tool);
    }

    method GetNodeTypeDescriptions(nodeTypes: seq<NeededNodeType>) returns (r: Result<seq<Description>, NodeTypeError>)
      modifies loadNodesAndCredentials`loadedNodes, this`loadLog
      ensures var s := DescribeAll(helpers, old(loadNodesAndCredentials.loadedNodes),
                                   loadNodesAndCredentials.knownNodes, nodeTypes);
        r == s.result && loadNodesAndCredentials.loadedNodes == s.loaded && loadLog == old(loadLog) + s.loads
    {
      var descriptions: seq<Description> := [];
      ghost var loads: seq<Load> := [];
      var i := 0;
      assert nodeTypes[0..] == nodeTypes;
      ContinueFromStart(DescribeAll(helpers, loadNodesAndCredentials.loadedNodes, loadNodesAndCredentials.knownNodes, nodeTypes));
      while i < |nodeTypes|
        invariant 0 <= i <= |nodeTypes|
        invariant loadLog == old(loadLog) + loads
        invariant Continue(descriptions, loads,
                    DescribeAll(helpers, loadNodesAndCredentials.loadedNodes, loadNodesAndCredentials.knownNodes, nodeTypes[i..]))
               == DescribeAll(helpers, old(loadNodesAndCredentials.loadedNodes), loadNodesAndCredentials.knownNodes, nodeTypes)
      {
        ghost var s := Lookup(helpers, loadNodesAndCredentials.loadedNodes, loadNodesAndCredentials.knownNodes, nodeTypes[i].name);
        ContinueStepAt(helpers, loadNodesAndCredentials.loadedNodes, loadNodesAndCredentials.knownNodes, nodeTypes, i, descriptions, loads);
        var nodeType := GetNode(nodeTypes[i].name);
        assert nodeType == s.result && loadNodesAndCredentials.loadedNodes == s.loaded;
        if nodeType.Err? {
          return Err(nodeType.error);
        }
        var description := helpers.getVersionedNodeType(nodeType.value.nodeType, Some(nodeTypes[i].version)).description;
        descriptions := descriptions + [NormalizeDescription(description)];
        loads := loads + s.loads;
        i := i + 1;
      }
      assert nodeTypes[i..] == [];
      assert descriptions + [] == descriptions && loads + [] == loads;
      return Ok(descriptions);
    }
  }
}
