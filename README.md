# NodeTypes registry model

A Dafny model of the node-type registry of the n8n command-line server
(`packages/cli/src/node-types.ts`, class `NodeTypes`). The registry resolves a
node-type name to an implementation through a cache of loaded node types
(`loadedNodes`) that sits in front of a catalogue of known types not yet loaded
(`knownNodes`). On a cache miss it loads the class once, in isolation, and
stores it. A request for `n8n-nodes-base.<x>Tool` is answered with an AI-tool
variant of the base node, which is derived once and then cached under the
request's name. A batch of requests can be turned into exported descriptions
whose names carry a package prefix. The registry also derives where a node's
translation bundle lives, from the versioned sub-directories beside the node's
source file.

Layout:

- `wrappers.dfy` (`Wrappers`): `Option` and `Result`; `Err` stands for a thrown error.
- `node_names.dfy` (`NodeNames`): the naming rules. These are tool-request detection,
  stripping of the `Tool` suffix, the `n8n-nodes-base.` prefixing of exported names,
  and removal of the first occurrence of a pattern (`String.prototype.replace` with a string pattern).
- `translation_paths.dfy` (`TranslationPaths`): which directories count as versioned,
  the maximum version (with JavaScript's `parseInt`, NaN and `Math.max` written out),
  and the translation path.
- `registry.dfy` (`Registry`): the registry as functions of its state. Each operation
  returns a `Step`: its outcome, the cache afterwards, and the calls made to the class loader.
  The lemmas there are about these functions.
- `node_types.dfy` (`NodeTypesService`): the `NodeTypes` class. It holds a reference to the
  shared `LoadNodesAndCredentials` object whose `loadedNodes` map its methods update in place.
  The class also holds a ghost log of class loads. Each method's `modifies` clause names only
  the `loadedNodes` field and that log, so the catalogue is untouched. Each method is proved
  equal to its `Registry` function.

The foreign helpers are `loadClassInIsolation`, `NodeHelpers.getVersionedNodeType`,
`NodeHelpers.applySpecialNodeParameters` and `NodeHelpers.convertNodeToAiTool`. They are the
arrow-typed fields of `Registry.Helpers`, which is given to the class constructor. Nothing is
assumed about them. The source's distinction between `INodeType` and `IVersionedNodeType` is
purely static: its `as INodeType` cast does nothing at run time. The model therefore uses one
`NodeType` datatype for both kinds and leaves it to the version resolver to tell them apart.
Versions are only passed through, so they are modelled as `real`.

Behaviour of the code that a reader may not expect (line numbers refer to
`packages/cli/src/node-types.ts`):

- Versioned directories `v1`, `v2`, `v10` yield version 2, not 10. The comment on line 146
  (`e.g. v1, v10`) admits three-character names, but line 140 reads only the character at
  index 1 (see Findings).
- A directory counts as versioned when it is named `v` or `V` followed by any one or two
  characters, not only digits (lines 149-150). `vx` qualifies and makes the maximum NaN
  (line 140), so the path falls back to the unversioned form (lines 125-127).
- A repeated tool request returns the cached tool only when the base node, at the version now
  requested, is still usable as a tool. The flag is checked at line 59, before the cache is
  consulted at line 63.
- The tool entry is cached with an empty source path (line 78).
- When a later request in a batch fails, the loads made for earlier requests stay in the cache
  (a `map` callback that throws, lines 155-169).
- The `Unknown node type` errors at lines 34-36 and 158 cannot be raised: `getNode` never
  returns a falsy value, it throws. The model has only the `getNode` error.

## Model

| member | source | states |
|---|---|---|
| `NodeNames.StartsWith` | packages/cli/src/node-types.ts:49 | `String.prototype.startsWith` (also used at lines 150 and 164); the lemmas about `IsToolRequest`, `NormalizeName` and `IsVersionedDirnameIff` rely on it |
| `NodeNames.EndsWith` | packages/cli/src/node-types.ts:49 | `String.prototype.endsWith`; the `StripToolSuffix` contract and `ToolBaseInBasePackage` rely on it |
| `NodeNames.StripToolSuffix` | packages/cli/src/node-types.ts:51-53 | appending `Tool` to the stripped name gives back the request; a name without the suffix is unchanged |
| `NodeNames.ToolBaseInBasePackage` | packages/cli/src/node-types.ts:49-53 | the base of a tool request is still in the `n8n-nodes-base` package and differs from the request, because the prefix and the `Tool` suffix cannot overlap |
| `NodeNames.NormalizeName` | packages/cli/src/node-types.ts:164-166 | an exported name always starts with `n8n-nodes` and ends with the original name; it equals the original exactly when that already starts with `n8n-nodes`, and is otherwise the original with `n8n-nodes-base.` in front |
| `NodeNames.NormalizeNameIdempotent` | packages/cli/src/node-types.ts:164-166 | normalising an exported name again changes nothing |
| `NodeNames.RemoveFirstCutsFirstOccurrence` | packages/cli/src/node-types.ts:123 | `replace` with a string pattern cuts out exactly the first occurrence of the pattern |
| `NodeNames.RemoveFirstWithoutOccurrence` | packages/cli/src/node-types.ts:123 | a name that does not contain the pattern is left unchanged |
| `NodeNames.ShortNodeTypeOfBaseName` | packages/cli/src/node-types.ts:123 | `n8n-nodes-base.<x>` becomes `<x>` in the translation file name |
| `TranslationPaths.IsVersionedDirnameIff` | packages/cli/src/node-types.ts:143-152 | an entry counts as versioned iff it is a directory, its name has 2 or 3 characters, and the name starts with `v` or `V` |
| `TranslationPaths.VersionedDirnameSource` | packages/cli/src/node-types.ts:133-136 | every kept name is the name of a versioned entry of the listing |
| `TranslationPaths.VersionedDirnameKept` | packages/cli/src/node-types.ts:133-136 | the name of every versioned entry of the listing is kept |
| `TranslationPaths.MathMax` | packages/cli/src/node-types.ts:140 | `Math.max` is NaN iff some argument is NaN; otherwise it bounds every argument and equals one of them |
| `TranslationPaths.ParseDigit` | packages/cli/src/node-types.ts:140 | `parseInt` of one character is a number (the digit's value) iff the character is a decimal digit, otherwise NaN; used by `GetMaxVersionNaN` and `GetMaxVersionValue` |
| `TranslationPaths.MaxVersionNone` | packages/cli/src/node-types.ts:138 | the maximum is `null` iff no entry of the listing is a versioned directory |
| `TranslationPaths.GetMaxVersionNaN` | packages/cli/src/node-types.ts:140 | the maximum is NaN iff some versioned directory has a non-digit at index 1 |
| `TranslationPaths.GetMaxVersionValue` | packages/cli/src/node-types.ts:140 | a numeric maximum is at least the digit at index 1 of every versioned directory, and equals one of those digits |
| `TranslationPaths.IsTruthy` | packages/cli/src/node-types.ts:125 | JavaScript truthiness of the maximum (`null`, NaN and 0 are falsy); characterised by `IsTruthyIff` |
| `TranslationPaths.NatToDecimal` | packages/cli/src/node-types.ts:126 | how the template literal `v${maxVersion}` prints the number; `DecimalOfDigit` states that a digit prints as itself |
| `TranslationPaths.IsTruthyIff` | packages/cli/src/node-types.ts:125 | the maximum is truthy iff every versioned directory has a digit at index 1 and at least one of those digits is not 0 |
| `TranslationPaths.NodeTranslationPathVersioned` | packages/cli/src/node-types.ts:121-127 | with a usable version, the path is `<dir>/v<d>/translations/<locale>/<type>.json`, where `d` is the largest character at index 1 among the versioned directories |
| `TranslationPaths.NodeTranslationPathUnversioned` | packages/cli/src/node-types.ts:121-127 | otherwise (no versioned directory, a NaN, or only zeros) the path is `<dir>/translations/<locale>/<type>.json` |
| `TranslationPaths.DirnameOfFile` | packages/cli/src/node-types.ts:121 | the directory of `<dir>/<file>` is `<dir>` |
| `TranslationPaths.MaxVersionReadsOneDigit` | packages/cli/src/node-types.ts:140-146 | as written, directories `v1`, `v2`, `v10` give version 2 and the `v2` bundle |
| `TranslationPaths.FullNumberMaxIsLargestVersion` | packages/cli/src/node-types.ts:140-146 | reading the leading decimal digits after the `v`, the maximum bounds the number of every versioned directory and equals one of them |
| `TranslationPaths.FullNumberMaxExample` | packages/cli/src/node-types.ts:140-146 | with the leading decimal digits after the `v` read, `v1`, `v2`, `v10` give version 10 and the `v10` bundle |
| `TranslationPaths.IsVersionedDirname` | packages/cli/src/node-types.ts:143-152 | the test itself; `IsVersionedDirnameIff` states it as directory, length 2 or 3, first character `v` or `V` |
| `TranslationPaths.ToLowerCase` | packages/cli/src/node-types.ts:150 | keeps the length and lowers each character on its own (ASCII letters only); used by `IsVersionedDirnameIff` |
| `TranslationPaths.VersionedDirnames` | packages/cli/src/node-types.ts:133-136 | never longer than the listing; `VersionedDirnameSource` and `VersionedDirnameKept` state that it keeps exactly the names of the versioned entries |
| `TranslationPaths.CharAt1Version` | packages/cli/src/node-types.ts:140 | a number exactly when the name has a decimal digit at index 1, and then that digit's value; NaN otherwise, including for names shorter than 2 |
| `TranslationPaths.GetMaxVersion` | packages/cli/src/node-types.ts:130-141 | `getMaxVersion` over a listing; `MaxVersionNone`, `GetMaxVersionNaN` and `GetMaxVersionValue` state when it is `null`, NaN or a number, and which number |
| `TranslationPaths.Dirname` | packages/cli/src/node-types.ts:121 | `path.dirname` over `/`-separated paths; `DirnameOfFile` states that `<dir>/<file>` gives `<dir>` |
| `TranslationPaths.PathJoin` | packages/cli/src/node-types.ts:126-127 | `path.join` as joining with `/`; the paths it builds are stated by `NodeTranslationPathVersioned` and `NodeTranslationPathUnversioned` |
| `TranslationPaths.PathForMax` | packages/cli/src/node-types.ts:123-127 | the choice at line 125 between the versioned and the unversioned path; stated by `NodeTranslationPathVersioned` and `NodeTranslationPathUnversioned` |
| `TranslationPaths.NodeTranslationPath` | packages/cli/src/node-types.ts:112-128 | `getNodeTranslationPath`; `NodeTranslationPathVersioned` and `NodeTranslationPathUnversioned` together give its result for every listing |
| `NodeNames.RemoveFirst` | packages/cli/src/node-types.ts:123 | never longer than its input; `RemoveFirstCutsFirstOccurrence` and `RemoveFirstWithoutOccurrence` state what it removes |
| `NodeNames.ShortNodeType` | packages/cli/src/node-types.ts:123 | the `replace('n8n-nodes-base.', '')` of line 123; `ShortNodeTypeOfBaseName` states that `n8n-nodes-base.<x>` gives `<x>` |
| `NodeNames.IsToolRequest` | packages/cli/src/node-types.ts:49 | the test at line 49; `ToolBaseInBasePackage` states what stripping leaves of a request that passes it |
| `Registry.BaseName` | packages/cli/src/node-types.ts:48-53 | for a tool request, the name that with `Tool` appended gives back the request and is still in `n8n-nodes-base`; any other request is looked up under its own name |
| `Registry.Lookup` | packages/cli/src/node-types.ts:94-110 | cache first: a cached name returns that entry, loads nothing and changes nothing. A name only in the catalogue is loaded exactly once, from the catalogue's source path and class name; the stored node type is `applySpecialNodeParameters` applied to what `loadClassInIsolation` returned, and it is stored with the catalogue's source path under that name, which is the only key added. Any other name fails with `UnrecognizedNodeType` and changes nothing. Existing entries are never changed |
| `Registry.LookupRepeat` | packages/cli/src/node-types.ts:96-106 | a second lookup of a resolved name returns the identical entry, with no load and no change |
| `Registry.LookupByName` | packages/cli/src/node-types.ts:43-45 | the node type of the resolved entry, with the same cache effect and error as `getNode` |
| `Registry.LookupWithSourcePath` | packages/cli/src/node-types.ts:28-41 | fails exactly for unknown names; otherwise returns the source path stored in the resolved entry and the description of that entry at the requested version |
| `Registry.SourcePathOfCatalogueEntry` | packages/cli/src/node-types.ts:28-41 | for a name only in the catalogue, the source path returned is the catalogue's |
| `Registry.LookupVersioned` | packages/cli/src/node-types.ts:47-80 | an error from the lookup of the base name is passed on unchanged; existing entries are never changed; the only keys added are the base name and the request's own name |
| `Registry.UnprefixedToolNameKept` | packages/cli/src/node-types.ts:49 | a name that ends in `Tool` but lies outside `n8n-nodes-base` is looked up unchanged |
| `Registry.PlainRequest` | packages/cli/src/node-types.ts:55-57 | a request that is not a tool request returns the versioned node type of the looked-up entry and writes nothing beyond that lookup's load |
| `Registry.ToolRequestNotUsable` | packages/cli/src/node-types.ts:59-60 | a tool request whose base, at the requested version, is not usable as a tool fails with `NotUsableAsTool(<base>)` and adds nothing under the tool name |
| `Registry.ToolRequestSucceeds` | packages/cli/src/node-types.ts:55-79 | a tool request succeeds iff its base resolves and, at the requested version, is usable as a tool |
| `Registry.ToolRequestCachesTool` | packages/cli/src/node-types.ts:62-79 | when the base resolves and is usable as a tool, the request returns a tool and the cache holds the returned tool under `<base>Tool`; that is the only key the tool step adds, and the base entry and all other entries are unchanged. A fresh tool is the converted versioned base, stored with an empty source path |
| `Registry.ToolRequestRepeat` | packages/cli/src/node-types.ts:59-65 | repeating a successful tool request with any version loads and writes nothing; it returns the same tool when the base at that version is usable as a tool, and fails otherwise |
| `Registry.BaseUnaffectedByTool` | packages/cli/src/node-types.ts:67-79 | after a tool request, the base name still resolves to the entry it resolved to before, without a load |
| `Registry.NormalizeDescription` | packages/cli/src/node-types.ts:162-166 | the exported copy differs from the description only in its normalised name |
| `Registry.DescribeAll` | packages/cli/src/node-types.ts:154-170 | a batch never changes an existing cache entry, so cached descriptions keep their own names; it adds only catalogued names; an empty batch returns no descriptions and changes and loads nothing |
| `Registry.DescribeAllAddsOnlyRequested` | packages/cli/src/node-types.ts:155-156 | the only keys a batch adds are requested names, and each added entry is `applySpecialNodeParameters` of the class loaded from that name's catalogue entry, with the catalogue's source path |
| `Registry.DescribeAllSucceedsIff` | packages/cli/src/node-types.ts:155-158 | the batch succeeds iff every requested name is cached or catalogued |
| `Registry.DescribeAllFailsAtFirstUnknown` | packages/cli/src/node-types.ts:155-158 | a failed batch reports `UnrecognizedNodeType` for the first unresolvable name, with no partial result |
| `Registry.DescribeAllDescriptions` | packages/cli/src/node-types.ts:154-170 | a successful batch has one description per request, in order; each is the normalised copy of the versioned description of the entry its name resolves to |
| `Registry.DescribeAllNamesNormalized` | packages/cli/src/node-types.ts:164-166 | every exported name starts with `n8n-nodes`, so normalising it again changes nothing |
| `NodeTypesService.NodeTypes.constructor` | packages/cli/src/node-types.ts:21 | the service holds the given loading subsystem (by reference) and the helpers, and has made no loads yet; the post-processor registration at line 22 is left out |
| `NodeTypesService.NodeTypes.GetKnownTypes` | packages/cli/src/node-types.ts:90-92 | returns the catalogue itself |
| `NodeTypesService.NodeTypes.GetNode` | packages/cli/src/node-types.ts:94-110 | result, new cache and loads are those of `Registry.Lookup` on the old cache |
| `NodeTypesService.NodeTypes.GetByName` | packages/cli/src/node-types.ts:43-45 | result, new cache and loads are those of `Registry.LookupByName` |
| `NodeTypesService.NodeTypes.GetWithSourcePath` | packages/cli/src/node-types.ts:28-41 | result, new cache and loads are those of `Registry.LookupWithSourcePath` |
| `NodeTypesService.NodeTypes.GetByNameAndVersion` | packages/cli/src/node-types.ts:47-80 | result, new cache and loads are those of `Registry.LookupVersioned` |
| `NodeTypesService.NodeTypes.GetNodeTypeDescriptions` | packages/cli/src/node-types.ts:154-170 | the loop over the requests yields the result, new cache and loads of `Registry.DescribeAll` |

## Left out

- `packages/cli/src/credentials/credentials.controller.ts` is not part of this model. It holds REST handlers, database transactions, encryption, events and e-mail, all delegated to services that are not shown.
- The constructor's post-processor registration and the `applySpecialNodeParameters` sweep over every cache entry (lines 22 and 83-88) are left out. Their effect lies entirely in an external helper that mutates nodes in place. The per-load call at line 103 is modelled as a function applied to the freshly loaded node.
- Exceptions thrown by the foreign helpers are not modelled: each helper is a total function. In the source such a throw at lines 102-103 happens before the write at line 105, so a failed load leaves the cache unchanged.
- The internals of `getVersionedNodeType` are not modelled: default version, exact match and "version not found" are left to that uninterpreted helper.
- The `Object.create` layering of the tool's description and properties (lines 68-76) is not modelled: the tool is `convertNodeToAiTool` applied to the versioned node itself, as a fresh value. In the source, the clone's description has `properties` as its only own field, and that field is not enumerable; every other field is inherited through the prototype chain. So the spreads `{ ...description }` at lines 40 and 162 copy neither `properties` nor the inherited fields when the tool that `convertNodeToAiTool` returns keeps that layered description. The model's `NormalizeDescription` and `LookupWithSourcePath` keep every field. Prototype sharing, and mutation through it, are not modelled either.
- `loadedNodes` and `knownNodes` are modelled as maps with only their own keys. In the source they are plain objects, and the `in` tests at lines 63, 96 and 100 also see keys inherited from `Object.prototype`. So in the source `getNode('constructor')` or `getNode('toString')` returns an `Object.prototype` member instead of throwing `UnrecognizedNodeTypeError`. `Registry.Lookup` fails for such names unless they are own keys.
- `readdir` and the asynchrony of `getNodeTranslationPath`/`getMaxVersion` are not modelled: the directory listing is passed in as a sequence of (name, is-directory) entries.
- `path.dirname` and `path.join` are taken as splitting at the last `/` and joining with `/`. The path normalisation of `join` (`.` segments, repeated separators) is not modelled.
- `toLowerCase` is modelled on ASCII letters only. Only its first character matters here, and `V` is the only character whose lower case is `v`.
- Name lengths count Dafny characters, whereas the source counts UTF-16 code units. The two differ only for characters outside the Basic Multilingual Plane.
- `Registry.LookupVersioned`: its own ensures covers only the error path and the frame. When it succeeds, and what it then returns, is stated by `PlainRequest` for other requests, and for tool requests by `ToolRequestSucceeds`, `ToolRequestNotUsable`, `ToolRequestCachesTool` and `ToolRequestRepeat`.
- Concurrency: the source is single-threaded per request and the model is sequential.

## Findings

| source | as written | input that shows it | evidently intended | confidence | as-written member | corrected member |
|---|---|---|---|---|---|---|
| packages/cli/src/node-types.ts:140-146 | the maximum version reads only `d.charAt(1)`, although names of length 3 (`v10`, per the comment on line 146) are admitted | directories `v1`, `v2`, `v10`: the maximum is 2 and the path uses `v2/translations/...` | read the leading decimal digits after the `v`, giving 10 and `v10/translations/...` | medium, not executed | `TranslationPaths.MaxVersionReadsOneDigit` | `TranslationPaths.FullNumberMaxIsLargestVersion` |

The corrected definitions are `TranslationPaths.GetMaxVersionFullNumber` and
`TranslationPaths.NodeTranslationPathFullNumber`; `FullNumberMaxExample` shows they pick
`v10` for the listing above. `NodeTranslationPath` itself keeps the behaviour as written,
since it models the code.
