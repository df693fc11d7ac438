/**
 * The naming conventions of node types: the `n8n-nodes-base` package prefix, the
 * `Tool` suffix that asks for the AI-tool variant of a node, and the rules that
 * add or remove these parts of a name.
 */
module NodeNames {

  /** The package whose node types may be requested as tools. */
  const BasePackage: string := "n8n-nodes-base"
  /** The namespace that unprefixed node names are put into. */
  const BaseNamespace: string := "n8n-nodes-base."
  /** Names starting with this are already namespaced. */
  const PackagePrefix: string := "n8n-nodes"
  /** The suffix that marks a request for a node's tool variant. */
  const ToolSuffix: string := "Tool"

  predicate StartsWith(s: string, prefix: string) {
    |prefix| <= |s| && s[..|prefix|] == prefix
  }

  predicate EndsWith(s: string, suffix: string) {
    |suffix| <= |s| && s[|s| - |suffix|..] == suffix
  }

  /** `pat` occurs in `s` at index `i`. */
  predicate OccursAt(s: string, pat: string, i: int) {
    0 <= i && i + |pat| <= |s| && s[i..i + |pat|] == pat
  }

  /** A request for the tool variant of a base node. */
  predicate IsToolRequest(nodeType: string) {
    StartsWith(nodeType, BasePackage) && EndsWith(nodeType, ToolSuffix)
  }

  /** `nodeType.replace(/Tool$/, '')`: drops a trailing `Tool`, if there is one. */
  function StripToolSuffix(nodeType: string): (base: string)
    ensures EndsWith(nodeType, ToolSuffix) ==> base + ToolSuffix == nodeType
    ensures !EndsWith(nodeType, ToolSuffix) ==> base == nodeType
  {
    if EndsWith(nodeType, ToolSuffix) then nodeType[..|nodeType| - |ToolSuffix|] else nodeType
  }

  /**
   * The base of a tool request is still a name of the base package, and it is a
   * different name from the request: the package prefix and the `Tool` suffix
   * cannot overlap.
   */
  lemma ToolBaseInBasePackage(nodeType: string)
    requires IsToolRequest(nodeType)
    ensures StartsWith(StripToolSuffix(nodeType), BasePackage)
    ensures StripToolSuffix(nodeType) != nodeType
  {
    var i := |nodeType| - |ToolSuffix|;
    assert nodeType[i] == 'T' by {
      assert nodeType[i..][0] == ToolSuffix[0];
    }
    assert forall j :: 0 <= j < |BasePackage| ==> BasePackage[j] != 'T';
    assert forall j :: 0 <= j < |BasePackage| ==> nodeType[j] == nodeType[..|BasePackage|][j];
    assert |BasePackage| <= i;
    var base := StripToolSuffix(nodeType);
    assert base[..|BasePackage|] == nodeType[..|BasePackage|];
  }

  /**
   * The name given to an exported description: names already in an `n8n-nodes`
   * package are kept, every other name is put into the base namespace.
   */
  function NormalizeName(name: string): (r: string)
    ensures StartsWith(r, PackagePrefix)
    ensures EndsWith(r, name)
    ensures r == name <==> StartsWith(name, PackagePrefix)
    ensures !StartsWith(name, PackagePrefix) ==> r == BaseNamespace + name
  {
    if StartsWith(name, PackagePrefix) then name else BaseNamespace + name
  }

  /** Normalising a name twice is normalising it once. */
  lemma NormalizeNameIdempotent(name: string)
    ensures NormalizeName(NormalizeName(name)) == NormalizeName(name)
  {
  }

  /** `s.replace(pat, '')` for a string pattern: only the first occurrence is removed. */
  function RemoveFirst(s: string, pat: string): (r: string)
    ensures |r| <= |s|
    decreases |s|
  {
    if StartsWith(s, pat) then s[|pat|..]
    else if s == [] then s
    else [s[0]] + RemoveFirst(s[1..], pat)
  }

  lemma OccursAtShift(s: string, pat: string, i: nat)
    requires |s| > 0
    ensures OccursAt(s, pat, i + 1) <==> OccursAt(s[1..], pat, i)
  {
    if i + 1 + |pat| <= |s| {
      assert s[i + 1..i + 1 + |pat|] == s[1..][i..i + |pat|];
    }
  }

  /** When `pat` first occurs at `i`, exactly that occurrence is cut out of `s`. */
  lemma {:induction false} RemoveFirstCutsFirstOccurrence(s: string, pat: string, i: nat)
    requires OccursAt(s, pat, i)
    requires forall j :: 0 <= j < i ==> !OccursAt(s, pat, j)
    ensures RemoveFirst(s, pat) == s[..i] + s[i + |pat|..]
    decreases i
  {
    if i == 0 {
      assert StartsWith(s, pat);
    } else {
      assert !OccursAt(s, pat, 0);
      assert !StartsWith(s, pat);
      OccursAtShift(s, pat, i - 1);
      forall j | 0 <= j < i - 1
        ensures !OccursAt(s[1..], pat, j)
      {
        OccursAtShift(s, pat, j);
      }
      RemoveFirstCutsFirstOccurrence(s[1..], pat, i - 1);
      assert [s[0]] + s[1..][..i - 1] == s[..i];
      assert s[1..][i - 1 + |pat|..] == s[i + |pat|..];
    }
  }

  /** A string in which `pat` does not occur is left as it is. */
  lemma {:induction false} RemoveFirstWithoutOccurrence(s: string, pat: string)
    requires forall j :: 0 <= j <= |s| ==> !OccursAt(s, pat, j)
    ensures RemoveFirst(s, pat) == s
    decreases |s|
  {
    assert !OccursAt(s, pat, 0);
    assert !StartsWith(s, pat);
    if s != [] {
      forall j | 0 <= j <= |s[1..]|
        ensures !OccursAt(s[1..], pat, j)
      {
        OccursAtShift(s, pat, j);
      }
      RemoveFirstWithoutOccurrence(s[1..], pat);
      assert [s[0]] + s[1..] == s;
    }
  }

  /** The node type name used in a translation file name. */
  function ShortNodeType(longNodeType: string): string {
    RemoveFirst(longNodeType, BaseNamespace)
  }

  /** A name in the base namespace loses exactly that namespace. */
  lemma ShortNodeTypeOfBaseName(name: string)
    ensures ShortNodeType(BaseNamespace + name) == name
  {
    var s := BaseNamespace + name;
    assert OccursAt(s, BaseNamespace, 0) by {
      assert s[..|BaseNamespace|] == BaseNamespace;
    }
    RemoveFirstCutsFirstOccurrence(s, BaseNamespace, 0);
  }
}
