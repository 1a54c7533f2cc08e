/** The MLTD Unity3D score format plug-in's file-type test
    (`Unity3DScoreFormat.cs`). Only ASCII letters are lower-cased. */
module Unity3DScoreFormat {

  const PluginId: string := "plugin.score.mltd.unity3d"
  const CanReadAsSource: bool := true
  const CanReadAsCompiled: bool := true

  /** The plug-in reads both source and compiled scores. */
  lemma Capabilities()
    ensures CanReadAsSource && CanReadAsCompiled
    ensures PluginId == "plugin.score.mltd.unity3d"
  {
  }

  const UnityExtension: string := ".unity3d"
  const CompressedUnityExtension: string := ".unity3d.lz4"

  function LowerChar(c: char): (r: char)
    ensures 'A' <= c <= 'Z' ==> r as int == c as int + 32
    ensures !('A' <= c <= 'Z') ==> r == c
    ensures !('A' <= r <= 'Z')
  {
    if 'A' <= c <= 'Z' then (c as int + 32) as char else c
  }

  /** `ToLowerInvariant`, restricted to ASCII. */
  function ToLower(s: string): (r: string)
    ensures |r| == |s|
    ensures forall i :: 0 <= i < |s| ==> r[i] == LowerChar(s[i])
  {
    seq(|s|, i requires 0 <= i < |s| => LowerChar(s[i]))
  }

  predicate EndsWith(s: string, suffix: string) {
    |suffix| <= |s| && s[|s| - |suffix|..] == suffix
  }

  /** Accepted exactly when the name's final 8 or 12 characters, lower-cased,
      are one of the two extensions. */
  predicate SupportsFileType(fileName: string): (r: bool)
    ensures r <==>
      (|fileName| >= 8 && ToLower(fileName[|fileName| - 8..]) == UnityExtension)
      || (|fileName| >= 12 && ToLower(fileName[|fileName| - 12..]) == CompressedUnityExtension)
  {
    var name := ToLower(fileName);
    EndsWith(name, UnityExtension) || EndsWith(name, CompressedUnityExtension)
  }

  /** Lower-casing is idempotent. */
  lemma ToLowerIdempotent(s: string)
    ensures ToLower(ToLower(s)) == ToLower(s)
  {
  }

  /** The test ignores case: names that lower-case alike get the same answer. */
  lemma SupportsIgnoresCase(a: string, b: string)
    requires ToLower(a) == ToLower(b)
    ensures SupportsFileType(a) == SupportsFileType(b)
  {
  }

  /** An accepted name ends, case aside, with `d` or `4`; so `.zip` and other
      endings are refused. */
  lemma AcceptedEndings(fileName: string)
    requires SupportsFileType(fileName)
    ensures |fileName| >= 8
    ensures LowerChar(fileName[|fileName| - 1]) == 'd' || LowerChar(fileName[|fileName| - 1]) == '4'
  {
  }

  /** A name ending in `.lz4` is accepted only when `.unity3d` comes right before it. */
  lemma Lz4NeedsUnity3d(fileName: string)
    requires EndsWith(ToLower(fileName), ".lz4")
    ensures SupportsFileType(fileName) <==> EndsWith(ToLower(fileName), CompressedUnityExtension)
  {
    LastChar(ToLower(fileName), ".lz4");
    LastChar(ToLower(fileName), UnityExtension);
  }

  lemma LastChar(s: string, suffix: string)
    requires |suffix| > 0
    ensures EndsWith(s, suffix) ==> s[|s| - 1] == suffix[|suffix| - 1]
  {
  }

  lemma UpperCaseAccepted()
    ensures SupportsFileType("A.UNITY3D") && SupportsFileType("a.unity3d")
  {
    assert ToLower("A.UNITY3D") == "a.unity3d";
    assert "a.unity3d"[1..] == UnityExtension;
  }

  lemma MixedCaseCompressedAccepted()
    ensures SupportsFileType("song.Unity3D.LZ4")
  {
    assert ToLower("song.Unity3D.LZ4") == "song.unity3d.lz4";
    assert "song.unity3d.lz4"[4..] == CompressedUnityExtension;
  }

  lemma OtherEndingsRefused()
    ensures !SupportsFileType("song.lz4") && !SupportsFileType("song.unity3d.zip")
  {
    Lz4NeedsUnity3d("song.lz4");
    AcceptedEndingsContra("song.unity3d.zip");
  }

  lemma AcceptedEndingsContra(fileName: string)
    requires |fileName| > 0
    requires LowerChar(fileName[|fileName| - 1]) != 'd' && LowerChar(fileName[|fileName| - 1]) != '4'
    ensures !SupportsFileType(fileName)
  {
  }
}
