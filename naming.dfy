/**
 * Scene discovery by file name: the regular expression
 * `(.+)_B(\d+)(_aligned)?\.TIF$` and the dict of groups it fills
 * (georeference_analysis.py demo, alignment_testing.py run_all_tests), and
 * the names the alignment and NDVI scripts derive from a red-band file name.
 */
module Naming {
  import opened Wrappers
  import opened Text
  import opened OrderedMaps

  const AlignedTif := "_aligned.TIF"
  const Tif := ".TIF"

  /** The number of digits at the end of `s`. */
  function TrailingDigits(s: string): (n: nat)
    ensures n <= |s|
    ensures forall i :: |s| - n <= i < |s| ==> IsDigit(s[i])
    ensures n < |s| ==> !IsDigit(s[|s| - n - 1])
    decreases |s|
  {
    if |s| > 0 && IsDigit(s[|s| - 1]) then 1 + TrailingDigits(s[..|s| - 1]) else 0
  }

  /** `name` is `prefix _B digits`, then `_aligned.TIF` or `.TIF`: one way the regex can match. */
  predicate SplitsAs(name: string, prefix: string, digits: string) {
    && |prefix| > 0 && |digits| > 0 && AllDigits(digits)
    && (name == prefix + "_B" + digits + AlignedTif || name == prefix + "_B" + digits + Tif)
  }

  /** The name without its `_aligned.TIF` or `.TIF` ending. */
  function Stem(name: string): Option<string> {
    if EndsWith(name, AlignedTif) then Some(name[..|name| - |AlignedTif|])
    else if EndsWith(name, Tif) then Some(name[..|name| - |Tif|])
    else None
  }

  /** A stem `prefix _B digits` split at its maximal trailing digit run. */
  function SplitStem(s: string): Option<(string, string)> {
    var n := TrailingDigits(s);
    if n == 0 || |s| - n < 3 || s[|s| - n - 2..|s| - n] != "_B" then None
    else Some((s[..|s| - n - 2], s[|s| - n..]))
  }

  /**
   * `re.search(r'(.+)_B(\d+)(_aligned)?\.TIF$', name)`: Some((group(1), group(2)))
   * on a match. The split is read from the end of the name.
   */
  function MatchBandFile(name: string): Option<(string, string)> {
    match Stem(name)
    case None => None
    case Some(s) => SplitStem(s)
  }

  lemma MatchBandFileSound(name: string)
    requires MatchBandFile(name).Some?
    ensures SplitsAs(name, MatchBandFile(name).value.0, MatchBandFile(name).value.1)
  {
    var s := Stem(name).value;
    var n := TrailingDigits(s);
    var p, d := s[..|s| - n - 2], s[|s| - n..];
    assert s == p + s[|s| - n - 2..|s| - n] + d;
    var suffix := if EndsWith(name, AlignedTif) then AlignedTif else Tif;
    assert s == name[..|name| - |suffix|];
    assert name == name[..|name| - |suffix|] + name[|name| - |suffix|..];
  }

  /** A name ending in a digit and `.TIF` does not end in `_aligned.TIF`. */
  lemma StemOfPlainName(s: string)
    requires |s| > 0 && IsDigit(s[|s| - 1])
    ensures Stem(s + Tif) == Some(s)
  {
    var name := s + Tif;
    if |name| >= |AlignedTif| {
      assert name[|name| - 5] == s[|s| - 1];
      assert name[|name| - |AlignedTif|..][7] != AlignedTif[7];
    }
    assert name[..|name| - |Tif|] == s;
  }

  lemma StemOfAlignedName(s: string)
    ensures Stem(s + AlignedTif) == Some(s)
  {
    assert (s + AlignedTif)[..|s + AlignedTif| - |AlignedTif|] == s;
  }

  lemma SplitStemOf(prefix: string, digits: string)
    requires |prefix| > 0 && |digits| > 0 && AllDigits(digits)
    ensures SplitStem(prefix + "_B" + digits) == Some((prefix, digits))
  {
    var s := prefix + "_B" + digits;
    TrailingDigitsOf(prefix + "_B", digits);
    assert s[..|s| - |digits| - 2] == prefix;
    assert s[|s| - |digits|..] == digits;
    assert s[|s| - |digits| - 2..|s| - |digits|] == "_B";
  }

  /** Every way of reading the name as the pattern is the one MatchBandFile finds. */
  lemma MatchBandFileComplete(name: string, prefix: string, digits: string)
    requires SplitsAs(name, prefix, digits)
    ensures MatchBandFile(name) == Some((prefix, digits))
  {
    var s := prefix + "_B" + digits;
    if name == s + AlignedTif {
      StemOfAlignedName(s);
    } else {
      assert s[|s| - 1] == digits[|digits| - 1];
      StemOfPlainName(s);
    }
    SplitStemOf(prefix, digits);
  }

  /** The trailing digit run of `t + digits` is `digits` when `t` ends in a non-digit. */
  lemma {:induction false} TrailingDigitsOf(t: string, digits: string)
    requires |t| > 0 && !IsDigit(t[|t| - 1]) && AllDigits(digits)
    ensures TrailingDigits(t + digits) == |digits|
    decreases |digits|
  {
    if digits == [] {
      assert t + digits == t;
    } else {
      assert (t + digits)[..|t + digits| - 1] == t + digits[..|digits| - 1];
      TrailingDigitsOf(t, digits[..|digits| - 1]);
    }
  }

  /** The name built from the pattern parses back to its parts. */
  lemma BandFileRoundTrip(prefix: string, digits: string, aligned: bool)
    requires |prefix| > 0 && |digits| > 0 && AllDigits(digits)
    ensures MatchBandFile(prefix + "_B" + digits + (if aligned then AlignedTif else Tif)) == Some((prefix, digits))
  {
    MatchBandFileComplete(prefix + "_B" + digits + (if aligned then AlignedTif else Tif), prefix, digits);
  }

  /** The (group, band key) a path is filed under, if its file name matches. */
  function GroupKey(path: string): Option<(string, string)> {
    match MatchBandFile(BaseName(path))
    case None => None
    case Some((prefix, digits)) => Some((prefix, "B" + digits))
  }

  type Groups = ODict<string, ODict<string, string>>

  /** `file_groups[prefix][key]`, if set. */
  function Lookup(g: Groups, prefix: string, bandKey: string): Option<string> {
    match Get(g, prefix)
    case None => None
    case Some(inner) => Get(inner, bandKey)
  }

  /** The file_groups dict after filing every path, in order. */
  function Group(paths: seq<string>): Groups
    decreases |paths|
  {
    if paths == [] then []
    else
      var g := Group(paths[..|paths| - 1]);
      var f := paths[|paths| - 1];
      match GroupKey(f)
      case None => g
      case Some((prefix, bandKey)) => Put(g, prefix, Put(Get(g, prefix).GetOr([]), bandKey, f))
  }

  /** The grouping loop of demo and run_all_tests, filling file_groups in place. */
  method GroupFiles(paths: seq<string>) returns (groups: Groups)
    ensures groups == Group(paths)
  {
    groups := [];
    var i := 0;
    while i < |paths|
      invariant 0 <= i <= |paths|
      invariant groups == Group(paths[..i])
    {
      assert paths[..i + 1][..i] == paths[..i];
      var file := paths[i];
      var m := MatchBandFile(BaseName(file));
      if m.Some? {
        var prefix := m.value.0;
        var bandNum := m.value.1;
        var inner: ODict<string, string> := if Get(groups, prefix).Some? then Get(groups, prefix).value else [];
        groups := Put(groups, prefix, Put(inner, "B" + bandNum, file));
      }
      i := i + 1;
    }
    assert paths[..|paths|] == paths;
  }

  /** The last path filed under (prefix, key): the one a later assignment leaves in place. */
  function LastFiled(paths: seq<string>, prefix: string, bandKey: string): Option<string>
    decreases |paths|
  {
    if paths == [] then None
    else if GroupKey(paths[|paths| - 1]) == Some((prefix, bandKey)) then Some(paths[|paths| - 1])
    else LastFiled(paths[..|paths| - 1], prefix, bandKey)
  }

  /** Each group maps a band key to the last file filed under it: later files overwrite earlier ones. */
  lemma {:induction false} GroupLastWins(paths: seq<string>, prefix: string, bandKey: string)
    ensures Lookup(Group(paths), prefix, bandKey) == LastFiled(paths, prefix, bandKey)
    decreases |paths|
  {
    if paths != [] {
      var init := paths[..|paths| - 1];
      var f := paths[|paths| - 1];
      GroupLastWins(init, prefix, bandKey);
      var g := Group(init);
      match GroupKey(f)
      case None =>
      case Some((p, l)) =>
        var inner := Get(g, p).GetOr([]);
        PutGet(g, p, Put(inner, l, f), prefix);
        PutGet(inner, l, f, bandKey);
    }
  }

  /** A group exists for exactly the prefixes some matching path has. */
  lemma {:induction false} GroupPrefixes(paths: seq<string>, prefix: string)
    ensures prefix in Keys(Group(paths)) <==>
      exists k :: 0 <= k < |paths| && GroupKey(paths[k]).Some? && GroupKey(paths[k]).value.0 == prefix
    decreases |paths|
  {
    if paths != [] {
      var init := paths[..|paths| - 1];
      var f := paths[|paths| - 1];
      GroupPrefixes(init, prefix);
      PrefixFoundSnoc(paths, prefix);
      var g := Group(init);
      match GroupKey(f)
      case None =>
      case Some((p, l)) =>
        PutKeys(g, p, Put(Get(g, p).GetOr([]), l, f));
    }
  }

  lemma PrefixFoundSnoc(paths: seq<string>, prefix: string)
    requires paths != []
    ensures var init, f := paths[..|paths| - 1], paths[|paths| - 1];
      (exists k :: 0 <= k < |paths| && GroupKey(paths[k]).Some? && GroupKey(paths[k]).value.0 == prefix) <==>
        || (exists k :: 0 <= k < |init| && GroupKey(init[k]).Some? && GroupKey(init[k]).value.0 == prefix)
        || (GroupKey(f).Some? && GroupKey(f).value.0 == prefix)
  {
    var init := paths[..|paths| - 1];
    assert forall k :: 0 <= k < |init| ==> init[k] == paths[k];
  }

  /** No group files two paths under one band key, as each group is a dict. */
  lemma {:induction false} GroupDictsDistinct(paths: seq<string>)
    ensures forall e :: e in Group(paths) ==> DistinctKeys(e.1)
    decreases |paths|
  {
    if paths != [] {
      var init := paths[..|paths| - 1];
      var f := paths[|paths| - 1];
      GroupDictsDistinct(init);
      var g := Group(init);
      match GroupKey(f)
      case None =>
      case Some((p, l)) =>
        var inner := Get(g, p).GetOr([]);
        if Get(g, p).Some? {
          GetEntry(g, p);
        }
        PutDistinct(inner, l, f);
        PutEntries(g, p, Put(inner, l, f));
    }
  }

  /** Filing a path that is already the entry for its (prefix, key) leaves the groups unchanged. */
  lemma RefilingIsNoOp(paths: seq<string>, f: string)
    requires GroupKey(f).Some?
    requires Lookup(Group(paths), GroupKey(f).value.0, GroupKey(f).value.1) == Some(f)
    ensures Group(paths + [f]) == Group(paths)
  {
    var g := Group(paths);
    var (p, l) := GroupKey(f).value;
    assert (paths + [f])[..|paths|] == paths;
    var inner := Get(g, p).value;
    PutSame(inner, l, f);
    PutSame(g, p, inner);
  }

  /**
   * With the two glob patterns chained, a (prefix, key) is bound to the last
   * such file of the second pattern's files, and only when that pattern has
   * none, to the last of the first pattern's.
   */
  lemma ChainedPatterns(first: seq<string>, second: seq<string>, prefix: string, bandKey: string)
    ensures Lookup(Group(first + second), prefix, bandKey) ==
      if LastFiled(second, prefix, bandKey).Some? then LastFiled(second, prefix, bandKey)
      else Lookup(Group(first), prefix, bandKey)
  {
    GroupLastWins(first + second, prefix, bandKey);
    GroupLastWins(first, prefix, bandKey);
    LastFiledAppend(first, second, prefix, bandKey);
  }

  lemma {:induction false} LastFiledAppend(a: seq<string>, b: seq<string>, prefix: string, bandKey: string)
    ensures LastFiled(a + b, prefix, bandKey) ==
      if LastFiled(b, prefix, bandKey).Some? then LastFiled(b, prefix, bandKey) else LastFiled(a, prefix, bandKey)
    decreases |b|
  {
    if b == [] {
      assert a + b == a;
    } else {
      assert (a + b)[..|a + b| - 1] == a + b[..|b| - 1];
      LastFiledAppend(a, b[..|b| - 1], prefix, bandKey);
    }
  }

  /** Every band key in every group is `B` followed by the digits of a file name. */
  lemma {:induction false} GroupLabels(paths: seq<string>, prefix: string, bandKey: string)
    requires Lookup(Group(paths), prefix, bandKey).Some?
    ensures |bandKey| >= 2 && bandKey[0] == 'B' && AllDigits(bandKey[1..])
    decreases |paths|
  {
    GroupLastWins(paths, prefix, bandKey);
    LastFiledKey(paths, prefix, bandKey);
    var f := LastFiled(paths, prefix, bandKey).value;
    var name := BaseName(f);
    MatchBandFileSound(name);
    assert bandKey == "B" + MatchBandFile(name).value.1;
    assert bandKey[1..] == MatchBandFile(name).value.1;
  }

  lemma {:induction false} LastFiledKey(paths: seq<string>, prefix: string, bandKey: string)
    requires LastFiled(paths, prefix, bandKey).Some?
    ensures GroupKey(LastFiled(paths, prefix, bandKey).value) == Some((prefix, bandKey))
    decreases |paths|
  {
    if GroupKey(paths[|paths| - 1]) != Some((prefix, bandKey)) {
      LastFiledKey(paths[..|paths| - 1], prefix, bandKey);
    }
  }

  // ---- names used by band_aligner.py and the NDVI scripts ----

  const SrB4Tif := "_SR_B4.TIF"

  /** `glob("*_SR_B4.TIF")` on one file name. */
  predicate IsSrB4File(name: string) {
    EndsWith(name, SrB4Tif)
  }

  /** `name.replace('_SR_B4.TIF', '')`. */
  function SceneName(name: string): string {
    ReplaceAll(name, SrB4Tif, "")
  }

  /** `name.replace('B4.TIF', 'B5.TIF')`. */
  function NirName(red: string): string {
    ReplaceAll(red, "B4.TIF", "B5.TIF")
  }

  /** `f"{scene}_{band}_aligned.TIF"`. */
  function AlignedName(scene: string, band: string): string {
    scene + "_" + band + AlignedTif
  }

  /** `f"ndvi_aligned_{scene}.tif"`. */
  function NdviAlignedName(scene: string): string {
    "ndvi_aligned_" + scene + ".tif"
  }

  /** `f"data/ndvi_{j}.tif"`. */
  function NumberedNdviName(j: nat): string {
    "data/ndvi_" + NatToString(j) + ".tif"
  }

  /** `"B4" in f and f.endswith(".TIF")`: the red-band selection of the NDVI scripts. */
  predicate IsRedCandidate(name: string) {
    Contains(name, "B4") && EndsWith(name, Tif)
  }

  /** Removing the scene suffix and putting it back gives the file name again, when it occurs once. */
  lemma SceneNameRoundTrip(name: string)
    requires OnlyAsSuffix(name, SrB4Tif)
    ensures SceneName(name) + SrB4Tif == name
  {
    ReplaceOnlySuffix(name, SrB4Tif, "");
    assert name[..|name| - |SrB4Tif|] + SrB4Tif == name;
  }

  /** The near-infrared counterpart swaps the band number in the suffix, when it occurs once. */
  lemma NirNameOfSceneFile(name: string)
    requires OnlyAsSuffix(name, "B4.TIF")
    ensures NirName(name) == name[..|name| - 6] + "B5.TIF"
    ensures |NirName(name)| == |name|
  {
    ReplaceOnlySuffix(name, "B4.TIF", "B5.TIF");
  }

  /** Different scenes or bands never share an aligned output name. */
  lemma {:induction false} AlignedNameInjective(s1: string, b1: string, s2: string, b2: string)
    requires |b1| == |b2|
    requires AlignedName(s1, b1) == AlignedName(s2, b2)
    ensures s1 == s2 && b1 == b2
  {
    var n1, n2 := AlignedName(s1, b1), AlignedName(s2, b2);
    assert |s1| == |s2|;
    assert s1 == n1[..|s1|] == n2[..|s2|] == s2;
    assert b1 == n1[|s1| + 1..|s1| + 1 + |b1|] == n2[|s2| + 1..|s2| + 1 + |b2|] == b2;
  }

  /** Within one directory and scene, each band has its own aligned output path. */
  lemma AlignedPathInjective(dir: string, scene: string, b1: string, b2: string)
    requires Join(dir, AlignedName(scene, b1)) == Join(dir, AlignedName(scene, b2))
    ensures b1 == b2
  {
    var n1, n2 := Join(dir, AlignedName(scene, b1)), Join(dir, AlignedName(scene, b2));
    var k := |dir| + 1 + |scene| + 1;
    assert |b1| == |b2|;
    assert b1 == n1[k..k + |b1|];
    assert b2 == n2[k..k + |b2|];
  }

  /** Scene j and scene k write different numbered NDVI files. */
  lemma NumberedNamesDistinct(j: nat, k: nat)
    requires j != k
    ensures NumberedNdviName(j) != NumberedNdviName(k)
  {
    if NumberedNdviName(j) == NumberedNdviName(k) {
      var a, b := NatToString(j), NatToString(k);
      assert "data/ndvi_" + a + ".tif" == "data/ndvi_" + b + ".tif";
      assert |a| == |b|;
      assert a == NumberedNdviName(j)[10..10 + |a|];
      assert b == NumberedNdviName(k)[10..10 + |b|];
      NatToStringInjective(j, k);
    }
  }
}
