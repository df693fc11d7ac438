/**
 * Where a node's translation bundle lives: the directory of the node's source
 * file, optionally a `v<N>` sub-directory for the highest version found there,
 * then `translations/<locale>/<type>.json`. The directory listing is an input.
 */
module TranslationPaths {
  import opened NodeNames

  /** One entry of a directory listing. */
  datatype DirEntry = DirEntry(name: string, isDirectory: bool)

  /** What `parseInt` yields: a number or NaN. */
  datatype Parsed = Num(n: nat) | NaN

  /**
   * What the maximum-version lookup yields: `null` when no entry qualifies,
   * NaN when some qualifying name has no number where one is read, else the maximum.
   */
  datatype VersionMax = NoVersionedDirs | NotANumber | Max(value: nat)

  /** The name lengths a versioned directory may have (`v1`, `v10`). */
  const AllowedVersionedDirnameLength: seq<nat> := [2, 3]

  function ToLowerAscii(c: char): char {
    if 'A' <= c <= 'Z' then (c as int + 32) as char else c
  }

  function ToLowerCase(s: string): (r: string)
    ensures |r| == |s|
    ensures forall i :: 0 <= i < |s| ==> r[i] == ToLowerAscii(s[i])
  {
    seq(|s|, i requires 0 <= i < |s| => ToLowerAscii(s[i]))
  }

  predicate IsVersionedDirname(e: DirEntry) {
    e.isDirectory
    && |e.name| in AllowedVersionedDirnameLength
    && StartsWith(ToLowerCase(e.name), "v")
  }

  /** A versioned directory is a directory named `v` or `V` followed by one or two characters. */
  lemma IsVersionedDirnameIff(e: DirEntry)
    ensures IsVersionedDirname(e) <==>
      e.isDirectory && (|e.name| == 2 || |e.name| == 3) && (e.name[0] == 'v' || e.name[0] == 'V')
  {
    if |e.name| > 0 {
      assert ToLowerCase(e.name)[..1] == [ToLowerAscii(e.name[0])];
    }
  }

  predicate IsDigit(c: char) {
    '0' <= c <= '9'
  }

  function DigitValue(c: char): nat
    requires IsDigit(c)
  {
    c as int - '0' as int
  }

  /** `parseInt(c, 10)` of a one-character string. */
  function ParseDigit(c: char): (p: Parsed)
    ensures p.Num? <==> IsDigit(c)
    ensures p.Num? ==> p.n < 10 && p.n == DigitValue(c)
  {
    if IsDigit(c) then Num(c as int - '0' as int) else NaN
  }

  /** The names of the versioned directories, in listing order. */
  function VersionedDirnames(entries: seq<DirEntry>): (names: seq<string>)
    ensures |names| <= |entries|
  {
    if entries == [] then []
    else (if IsVersionedDirname(entries[0]) then [entries[0].name] else []) + VersionedDirnames(entries[1..])
  }

  /** Every kept name is the name of a versioned entry of the listing. */
  lemma {:induction false} VersionedDirnameSource(entries: seq<DirEntry>, i: nat) returns (e: DirEntry)
    requires i < |VersionedDirnames(entries)|
    ensures e in entries && IsVersionedDirname(e) && e.name == VersionedDirnames(entries)[i]
  {
    var head := if IsVersionedDirname(entries[0]) then [entries[0].name] else [];
    if i < |head| {
      e := entries[0];
    } else {
      e := VersionedDirnameSource(entries[1..], i - |head|);
    }
  }

  /** The name of every versioned entry of the listing is kept. */
  lemma {:induction false} VersionedDirnameKept(entries: seq<DirEntry>, e: DirEntry) returns (i: nat)
    requires e in entries && IsVersionedDirname(e)
    ensures i < |VersionedDirnames(entries)| && VersionedDirnames(entries)[i] == e.name
  {
    var head := if IsVersionedDirname(entries[0]) then [entries[0].name] else [];
    if e == entries[0] {
      i := 0;
    } else {
      assert e in entries[1..];
      var j := VersionedDirnameKept(entries[1..], e);
      i := |head| + j;
    }
  }

  /** `Math.max(...ps)`: NaN as soon as one argument is NaN. */
  function MathMax(ps: seq<Parsed>): (r: Parsed)
    requires |ps| > 0
    ensures r.Num? <==> forall i :: 0 <= i < |ps| ==> ps[i].Num?
    ensures r.Num? ==> forall i :: 0 <= i < |ps| ==> ps[i].n <= r.n
    ensures r.Num? ==> exists i :: 0 <= i < |ps| && ps[i].n == r.n
  {
    if |ps| == 1 then ps[0]
    else
      var rest := MathMax(ps[1..]);
      assert forall i :: 1 <= i < |ps| ==> ps[i] == ps[1..][i - 1];
      if ps[0].NaN? || rest.NaN? then NaN
      else if ps[0].n < rest.n then rest
      else ps[0]
  }

  /** `parseInt(name.charAt(1), 10)`: the character at index 1 only (`charAt` past the end is empty, hence NaN). */
  function CharAt1Version(name: string): (p: Parsed)
    ensures p.Num? <==> |name| >= 2 && IsDigit(name[1])
    ensures p.Num? ==> p.n == DigitValue(name[1])
  {
    if |name| >= 2 then ParseDigit(name[1]) else NaN
  }

  /** The number each name contributes, in order. */
  function VersionsOf(names: seq<string>, version: string -> Parsed): (ps: seq<Parsed>)
    ensures |ps| == |names|
    ensures forall i :: 0 <= i < |names| ==> ps[i] == version(names[i])
  {
    seq(|names|, i requires 0 <= i < |names| => version(names[i]))
  }

  /** The maximum over the versioned directories of the numbers `version` reads from their names. */
  function MaxVersionBy(entries: seq<DirEntry>, version: string -> Parsed): VersionMax {
    var dirnames := VersionedDirnames(entries);
    if |dirnames| == 0 then NoVersionedDirs
    else
      match MathMax(VersionsOf(dirnames, version))
      case NaN => NotANumber
      case Num(n) => Max(n)
  }

  /** `getMaxVersion(dir)` over the listing of `dir`. */
  function GetMaxVersion(entries: seq<DirEntry>): VersionMax {
    MaxVersionBy(entries, CharAt1Version)
  }

  /** The maximum is `null` exactly when no entry of the listing qualifies. */
  lemma MaxVersionNone(entries: seq<DirEntry>, version: string -> Parsed)
    ensures MaxVersionBy(entries, version) == NoVersionedDirs <==>
      forall e :: e in entries ==> !IsVersionedDirname(e)
  {
    var dirnames := VersionedDirnames(entries);
    if |dirnames| > 0 {
      var e := VersionedDirnameSource(entries, 0);
    } else {
      forall e | e in entries ensures !IsVersionedDirname(e) {
        if IsVersionedDirname(e) {
          var i := VersionedDirnameKept(entries, e);
        }
      }
    }
  }

  /** The maximum is NaN exactly when some qualifying name reads as NaN. */
  lemma MaxVersionNaN(entries: seq<DirEntry>, version: string -> Parsed)
    ensures MaxVersionBy(entries, version) == NotANumber <==>
      exists e :: e in entries && IsVersionedDirname(e) && version(e.name).NaN?
  {
    var dirnames := VersionedDirnames(entries);
    if |dirnames| > 0 {
      var ps := VersionsOf(dirnames, version);
      if MathMax(ps).NaN? {
        var i :| 0 <= i < |ps| && !ps[i].Num?;
        var e := VersionedDirnameSource(entries, i);
        assert version(e.name).NaN?;
      } else {
        forall e | e in entries && IsVersionedDirname(e) ensures version(e.name).Num? {
          var i := VersionedDirnameKept(entries, e);
          assert ps[i].Num?;
        }
      }
    } else {
      MaxVersionNone(entries, version);
    }
  }

  /** A numeric maximum bounds every qualifying name's number and is one of them. */
  lemma MaxVersionValue(entries: seq<DirEntry>, version: string -> Parsed)
    requires MaxVersionBy(entries, version).Max?
    ensures forall e :: e in entries && IsVersionedDirname(e) ==>
      version(e.name).Num? && version(e.name).n <= MaxVersionBy(entries, version).value
    ensures exists e :: (e in entries && IsVersionedDirname(e) &&
      version(e.name) == Num(MaxVersionBy(entries, version).value))
  {
    var dirnames := VersionedDirnames(entries);
    var ps := VersionsOf(dirnames, version);
    var m := MathMax(ps);
    forall e | e in entries && IsVersionedDirname(e)
      ensures version(e.name).Num? && version(e.name).n <= m.n
    {
      var i := VersionedDirnameKept(entries, e);
      assert ps[i].Num? && ps[i].n <= m.n;
    }
    var i :| 0 <= i < |ps| && ps[i].n == m.n;
    var e := VersionedDirnameSource(entries, i);
    assert version(e.name) == Num(m.n);
  }

  /**
   * The as-written maximum in terms of the listing: NaN exactly when some
   * qualifying name has a non-digit at index 1.
   */
  lemma GetMaxVersionNaN(entries: seq<DirEntry>)
    ensures GetMaxVersion(entries) == NotANumber <==>
      exists e :: e in entries && IsVersionedDirname(e) && !IsDigit(e.name[1])
  {
    MaxVersionNaN(entries, CharAt1Version);
  }

  /** A numeric as-written maximum is the largest digit at index 1 among the qualifying names. */
  lemma GetMaxVersionValue(entries: seq<DirEntry>)
    requires GetMaxVersion(entries).Max?
    ensures forall e :: e in entries && IsVersionedDirname(e) ==>
      IsDigit(e.name[1]) && DigitValue(e.name[1]) <= GetMaxVersion(entries).value
    ensures exists e :: (e in entries && IsVersionedDirname(e) &&
      IsDigit(e.name[1]) && DigitValue(e.name[1]) == GetMaxVersion(entries).value)
  {
    MaxVersionValue(entries, CharAt1Version);
    var e :| e in entries && IsVersionedDirname(e) &&
      CharAt1Version(e.name) == Num(GetMaxVersion(entries).value);
    assert IsDigit(e.name[1]);
  }

  /** JavaScript truthiness of the maximum: `null`, NaN and 0 are falsy. */
  predicate IsTruthy(m: VersionMax) {
    m.Max? && m.value != 0
  }

  function DigitChar(d: nat): char
    requires d < 10
  {
    ('0' as int + d) as char
  }

  /** The decimal numeral of `n`, as a template literal prints it. */
  function NatToDecimal(n: nat): (s: string)
    ensures |s| > 0
  {
    if n < 10 then [DigitChar(n)] else NatToDecimal(n / 10) + [DigitChar(n % 10)]
  }

  /** Index of the last `/` in `p`, or -1. */
  function LastSlash(p: string): (i: int)
    ensures -1 <= i < |p|
    ensures i >= 0 ==> p[i] == '/'
    ensures forall j :: i < j < |p| ==> p[j] != '/'
  {
    if p == [] then -1
    else if p[|p| - 1] == '/' then |p| - 1
    else LastSlash(p[..|p| - 1])
  }

  /** `path.dirname` on `/`-separated paths. */
  function Dirname(p: string): string {
    var i := LastSlash(p);
    if i < 0 then "." else if i == 0 then "/" else p[..i]
  }

  /** The directory of `dir/file` is `dir` when `file` has no separator. */
  lemma {:induction false} DirnameOfFile(dir: string, file: string)
    requires |dir| > 0
    requires forall i :: 0 <= i < |file| ==> file[i] != '/'
    ensures LastSlash(dir + "/" + file) == |dir|
    ensures Dirname(dir + "/" + file) == dir
    decreases |file|
  {
    var p := dir + "/" + file;
    if file != [] {
      assert p[..|p| - 1] == dir + "/" + file[..|file| - 1];
      DirnameOfFile(dir, file[..|file| - 1]);
    } else {
      assert p[|p| - 1] == '/';
    }
    assert p[..|dir|] == dir;
  }

  /** `path.join`, taken as joining the segments with `/`. */
  function PathJoin(segments: seq<string>): string
  {
    if |segments| == 0 then ""
    else if |segments| == 1 then segments[0]
    else PathJoin(segments[..|segments| - 1]) + "/" + segments[|segments| - 1]
  }

  /** The translation path for a node whose directory lists `entries`. */
  function PathForMax(nodeDir: string, max: VersionMax, longNodeType: string, locale: string): string {
    var file := ShortNodeType(longNodeType) + ".json";
    if IsTruthy(max) then PathJoin([nodeDir, "v" + NatToDecimal(max.value), "translations", locale, file])
    else PathJoin([nodeDir, "translations", locale, file])
  }

  /** `getNodeTranslationPath`, with `entries` the listing of the node's directory. */
  function NodeTranslationPath(nodeSourcePath: string, longNodeType: string, locale: string,
                               entries: seq<DirEntry>): string
  {
    PathForMax(Dirname(nodeSourcePath), GetMaxVersion(entries), longNodeType, locale)
  }

  /** Every qualifying directory has a digit at index 1 and one of them is not `0`. */
  predicate HasUsableVersion(entries: seq<DirEntry>) {
    && (forall e :: e in entries && IsVersionedDirname(e) ==> IsDigit(e.name[1]))
    && (exists e :: e in entries && IsVersionedDirname(e) && e.name[1] != '0')
  }

  /** The maximum is truthy exactly when the listing has a usable version. */
  lemma IsTruthyIff(entries: seq<DirEntry>)
    ensures IsTruthy(GetMaxVersion(entries)) <==> HasUsableVersion(entries)
  {
    var m := GetMaxVersion(entries);
    if m.NoVersionedDirs? {
      MaxVersionNone(entries, CharAt1Version);
    } else if m.NotANumber? {
      GetMaxVersionNaN(entries);
    } else {
      GetMaxVersionValue(entries);
      if m.value == 0 {
        forall f | f in entries && IsVersionedDirname(f) ensures f.name[1] == '0' {
          assert DigitValue(f.name[1]) <= 0;
        }
      } else {
        var e :| e in entries && IsVersionedDirname(e) && IsDigit(e.name[1]) && DigitValue(e.name[1]) == m.value;
        assert e.name[1] != '0';
      }
    }
  }

  /** A numeric maximum is the value of the largest character at index 1 of a qualifying name. */
  lemma UsableMaxIsLargestDigit(entries: seq<DirEntry>)
    requires GetMaxVersion(entries).Max?
    ensures exists e :: (
      && e in entries && IsVersionedDirname(e)
      && (forall f :: f in entries && IsVersionedDirname(f) ==> f.name[1] <= e.name[1])
      && IsDigit(e.name[1]) && DigitValue(e.name[1]) == GetMaxVersion(entries).value)
  {
    GetMaxVersionValue(entries);
    var m := GetMaxVersion(entries);
    var e :| e in entries && IsVersionedDirname(e) && IsDigit(e.name[1]) && DigitValue(e.name[1]) == m.value;
    forall f | f in entries && IsVersionedDirname(f) ensures f.name[1] <= e.name[1] {
      assert DigitValue(f.name[1]) <= m.value;
    }
  }

  /** A one-digit number prints as its digit. */
  lemma DecimalOfDigit(c: char)
    requires IsDigit(c)
    ensures NatToDecimal(DigitValue(c)) == [c]
  {
  }

  /** A truthy maximum `d` puts the bundle under `v<d>`. */
  lemma PathForTruthyMax(nodeDir: string, max: VersionMax, longNodeType: string, locale: string, c: char)
    requires IsTruthy(max) && IsDigit(c) && DigitValue(c) == max.value
    ensures PathForMax(nodeDir, max, longNodeType, locale)
         == PathJoin([nodeDir, "v" + [c], "translations", locale, ShortNodeType(longNodeType) + ".json"])
  {
    DecimalOfDigit(c);
  }

  /**
   * With a usable version the path goes through `v<d>`, `d` being the largest
   * character at index 1 of a qualifying directory.
   */
  lemma NodeTranslationPathVersioned(nodeSourcePath: string, longNodeType: string, locale: string,
                                     entries: seq<DirEntry>)
    requires HasUsableVersion(entries)
    ensures exists e :: (
      && e in entries && IsVersionedDirname(e)
      && (forall f :: f in entries && IsVersionedDirname(f) ==> f.name[1] <= e.name[1])
      && NodeTranslationPath(nodeSourcePath, longNodeType, locale, entries)
         == PathJoin([Dirname(nodeSourcePath), "v" + [e.name[1]], "translations", locale,
                      ShortNodeType(longNodeType) + ".json"]))
  {
    var max := GetMaxVersion(entries);
    assert IsTruthy(max) by {
      IsTruthyIff(entries);
    }
    UsableMaxIsLargestDigit(entries);
    var e :| && e in entries && IsVersionedDirname(e)
             && (forall f :: f in entries && IsVersionedDirname(f) ==> f.name[1] <= e.name[1])
             && IsDigit(e.name[1]) && DigitValue(e.name[1]) == max.value;
    var dir := Dirname(nodeSourcePath);
    assert NodeTranslationPath(nodeSourcePath, longNodeType, locale, entries)
        == PathJoin([dir, "v" + [e.name[1]], "translations", locale, ShortNodeType(longNodeType) + ".json"]) by {
      PathForTruthyMax(dir, max, longNodeType, locale, e.name[1]);
    }
  }

  /** Without a usable version the path sits directly under the node's directory. */
  lemma NodeTranslationPathUnversioned(nodeSourcePath: string, longNodeType: string, locale: string,
                                       entries: seq<DirEntry>)
    requires !HasUsableVersion(entries)
    ensures NodeTranslationPath(nodeSourcePath, longNodeType, locale, entries)
         == PathJoin([Dirname(nodeSourcePath), "translations", locale, ShortNodeType(longNodeType) + ".json"])
  {
    IsTruthyIff(entries);
  }

  // The listing below has directories `v1`, `v2` and `v10`. The allowed name
  // lengths 2 and 3 admit `v10`, but only index 1 is read, so `v10` counts as 1.

  const ExampleListing: seq<DirEntry> :=
    [DirEntry("v1", true), DirEntry("v2", true), DirEntry("v10", true)]

  lemma ExampleVersionedDirnames()
    ensures VersionedDirnames(ExampleListing) == ["v1", "v2", "v10"]
  {
    assert IsVersionedDirname(DirEntry("v1", true)) by { IsVersionedDirnameIff(DirEntry("v1", true)); }
    assert IsVersionedDirname(DirEntry("v2", true)) by { IsVersionedDirnameIff(DirEntry("v2", true)); }
    assert IsVersionedDirname(DirEntry("v10", true)) by { IsVersionedDirnameIff(DirEntry("v10", true)); }
    assert ExampleListing[1..][1..][1..] == [];
  }

  lemma ExampleMaxAsWritten()
    ensures GetMaxVersion(ExampleListing) == Max(2)
  {
    ExampleVersionedDirnames();
    var ps := VersionsOf(["v1", "v2", "v10"], CharAt1Version);
    assert ps == [Num(1), Num(2), Num(1)];
    assert MathMax(ps[2..]) == Num(1);
    assert MathMax(ps[1..]) == Num(2);
  }

  /** The path for node `dir/file` of type `n8n-nodes-base.foo` under a given maximum. */
  lemma ExamplePath(dir: string, file: string, max: VersionMax, versionDir: string)
    requires |dir| > 0
    requires forall i :: 0 <= i < |file| ==> file[i] != '/'
    requires IsTruthy(max) && versionDir == "v" + NatToDecimal(max.value)
    ensures PathForMax(Dirname(dir + "/" + file), max, BaseNamespace + "foo", "en")
         == PathJoin([dir, versionDir, "translations", "en", "foo.json"])
  {
    DirnameOfFile(dir, file);
    ShortNodeTypeOfBaseName("foo");
    assert "foo" + ".json" == "foo.json";
  }

  /** As written, the listing `v1`, `v2`, `v10` yields version 2 and the `v2` bundle. */
  lemma MaxVersionReadsOneDigit(dir: string, file: string)
    requires |dir| > 0
    requires forall i :: 0 <= i < |file| ==> file[i] != '/'
    ensures GetMaxVersion(ExampleListing) == Max(2)
    ensures NodeTranslationPath(dir + "/" + file, BaseNamespace + "foo", "en", ExampleListing)
         == PathJoin([dir, "v2", "translations", "en", "foo.json"])
  {
    var m := GetMaxVersion(ExampleListing);
    assert m == Max(2) by {
      ExampleMaxAsWritten();
    }
    assert "v" + NatToDecimal(2) == "v2" by {
      assert NatToDecimal(2) == [DigitChar(2)];
    }
    assert NodeTranslationPath(dir + "/" + file, BaseNamespace + "foo", "en", ExampleListing)
        == PathForMax(Dirname(dir + "/" + file), m, BaseNamespace + "foo", "en");
    ExamplePath(dir, file, m, "v2");
  }

  /** The number of leading decimal digits of `s`. */
  function LeadingDigitCount(s: string): (k: nat)
    ensures k <= |s|
    ensures forall i :: 0 <= i < k ==> IsDigit(s[i])
    ensures k < |s| ==> !IsDigit(s[k])
  {
    if s == [] || !IsDigit(s[0]) then 0 else 1 + LeadingDigitCount(s[1..])
  }

  /** The value of a decimal numeral. */
  function DecimalValue(ds: string): nat
    requires forall i :: 0 <= i < |ds| ==> IsDigit(ds[i])
  {
    if ds == [] then 0 else 10 * DecimalValue(ds[..|ds| - 1]) + DigitValue(ds[|ds| - 1])
  }

  /** `parseInt(s, 10)` for a string that starts with neither a blank nor a sign. */
  function ParseInt(s: string): (p: Parsed)
    ensures p.NaN? <==> s == [] || !IsDigit(s[0])
  {
    var k := LeadingDigitCount(s);
    if k == 0 then NaN else Num(DecimalValue(s[..k]))
  }

  /** The number formed by the leading decimal digits after the `v` (NaN when there are none). */
  function FullNumberVersion(name: string): Parsed {
    if |name| >= 1 then ParseInt(name[1..]) else NaN
  }

  /** The maximum version with every digit after the `v` read. */
  function GetMaxVersionFullNumber(entries: seq<DirEntry>): VersionMax {
    MaxVersionBy(entries, FullNumberVersion)
  }

  /** The translation path built from the full-number maximum. */
  function NodeTranslationPathFullNumber(nodeSourcePath: string, longNodeType: string, locale: string,
                                         entries: seq<DirEntry>): string
  {
    PathForMax(Dirname(nodeSourcePath), GetMaxVersionFullNumber(entries), longNodeType, locale)
  }

  /**
   * The full-number maximum is the largest version number among the qualifying
   * directories, so `v10` outranks `v2`.
   */
  lemma FullNumberMaxIsLargestVersion(entries: seq<DirEntry>)
    requires GetMaxVersionFullNumber(entries).Max?
    ensures forall e :: e in entries && IsVersionedDirname(e) ==>
      FullNumberVersion(e.name).Num? && FullNumberVersion(e.name).n <= GetMaxVersionFullNumber(entries).value
    ensures exists e :: (e in entries && IsVersionedDirname(e) &&
      FullNumberVersion(e.name) == Num(GetMaxVersionFullNumber(entries).value))
  {
    MaxVersionValue(entries, FullNumberVersion);
  }

  lemma ExampleFullNumbers()
    ensures FullNumberVersion("v1") == Num(1)
    ensures FullNumberVersion("v2") == Num(2)
    ensures FullNumberVersion("v10") == Num(10)
  {
    assert FullNumberVersion("v10") == Num(10) by {
      assert "v10"[1..] == "10";
      assert LeadingDigitCount("10") == 2 by {
        assert "10"[1..][1..] == [];
      }
      assert "10"[..2] == "10";
      assert DecimalValue("10") == 10 by {
        assert "10"[..1] == "1";
        assert "1"[..0] == "";
      }
    }
    assert FullNumberVersion("v1") == Num(1) by {
      assert "v1"[1..] == "1" && "1"[..1] == "1";
      assert LeadingDigitCount("1") == 1 by { assert "1"[1..] == []; }
      assert DecimalValue("1") == 1 by { assert "1"[..0] == ""; }
    }
    assert FullNumberVersion("v2") == Num(2) by {
      assert "v2"[1..] == "2" && "2"[..1] == "2";
      assert LeadingDigitCount("2") == 1 by { assert "2"[1..] == []; }
      assert DecimalValue("2") == 2 by { assert "2"[..0] == ""; }
    }
  }

  lemma ExampleMaxFullNumber()
    ensures GetMaxVersionFullNumber(ExampleListing) == Max(10)
  {
    ExampleVersionedDirnames();
    var ps := VersionsOf(["v1", "v2", "v10"], FullNumberVersion);
    assert ps == [Num(1), Num(2), Num(10)] by {
      ExampleFullNumbers();
    }
    assert MathMax(ps[2..]) == Num(10);
    assert MathMax(ps[1..]) == Num(10);
  }

  /** With every leading digit after the `v` read, the listing `v1`, `v2`, `v10` yields version 10 and the `v10` bundle. */
  lemma FullNumberMaxExample(dir: string, file: string)
    requires |dir| > 0
    requires forall i :: 0 <= i < |file| ==> file[i] != '/'
    ensures GetMaxVersionFullNumber(ExampleListing) == Max(10)
    ensures NodeTranslationPathFullNumber(dir + "/" + file, BaseNamespace + "foo", "en", ExampleListing)
         == PathJoin([dir, "v10", "translations", "en", "foo.json"])
  {
    var m := GetMaxVersionFullNumber(ExampleListing);
    assert m == Max(10) by {
      ExampleMaxFullNumber();
    }
    assert "v" + NatToDecimal(10) == "v10" by {
      assert NatToDecimal(10) == NatToDecimal(1) + [DigitChar(0)];
      assert NatToDecimal(1) == [DigitChar(1)];
    }
    assert NodeTranslationPathFullNumber(dir + "/" + file, BaseNamespace + "foo", "en", ExampleListing)
        == PathForMax(Dirname(dir + "/" + file), m, BaseNamespace + "foo", "en");
    ExamplePath(dir, file, m, "v10");
  }
}
