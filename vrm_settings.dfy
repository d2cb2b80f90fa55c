/** The VRM file picker's validator (app/components/settings/VRMSettings.tsx):
    a chain of early-return guards ending in one `onVRMFileChange` call. */
module VrmSettings {

  import opened Options
  import opened Types

  /** Largest accepted model file: 50 MiB. */
  const MaxVrmBytes: int := 50 * 1024 * 1024

  const Extension: string := ".vrm"

  /** `toLowerCase` on one character, for the ASCII letters. */
  function LowerChar(c: char): char
  {
    if 'A' <= c <= 'Z' then (c as int - 'A' as int + 'a' as int) as char else c
  }

  function Lower(s: string): (r: string)
    ensures |r| == |s| && forall i :: 0 <= i < |s| ==> r[i] == LowerChar(s[i])
  {
    seq(|s|, i requires 0 <= i < |s| => LowerChar(s[i]))
  }

  /** `name.toLowerCase().endsWith('.vrm')`. */
  predicate HasVrmExtension(name: string)
  {
    var lower := Lower(name);
    |lower| >= |Extension| && lower[|lower| - |Extension|..] == Extension
  }

  /** How a selection ends: ignored, rejected for its extension, rejected
      for its size, or forwarded to `onVRMFileChange`. */
  datatype Outcome = Ignored | WrongExtension | TooLarge | Forwarded(file: File)

  /** `handleFileSelect`. */
  function HandleFileSelect(file: Option<File>): (r: Outcome)
    ensures r.Forwarded? <==> file.Some? && HasVrmExtension(file.value.name) && file.value.size <= MaxVrmBytes
    ensures r.Forwarded? ==> r.file == file.value
    ensures r == Ignored <==> file.None?
    ensures r == WrongExtension <==> file.Some? && !HasVrmExtension(file.value.name)
  {
    match file
    case None => Ignored
    case Some(f) =>
      if !HasVrmExtension(f.name) then WrongExtension
      else if f.size > MaxVrmBytes then TooLarge
      else Forwarded(f)
  }

  /** The arguments `onVRMFileChange` receives for an outcome: one call for
      a forwarded file, none otherwise. */
  function Callbacks(r: Outcome): (calls: seq<Option<File>>)
    ensures |calls| <= 1
    ensures |calls| == 1 <==> r.Forwarded?
  {
    if r.Forwarded? then [Some(r.file)] else []
  }

  /** `e.target.files?.[0] || null`: only the first file of a selection or a
      drop is considered. */
  function FirstFile(files: seq<File>): (r: Option<File>)
    ensures r.Some? <==> |files| > 0
    ensures r.Some? ==> r.value == files[0]
  {
    if |files| > 0 then Some(files[0]) else None
  }

  /** `resetToDefault`: a single call with null. */
  function ResetToDefault(): (calls: seq<Option<File>>)
    ensures |calls| == 1 && calls[0].None?
  {
    [None]
  }

  /** The extension test runs first: a wrong-extension file is rejected
      for its extension whatever its size. */
  lemma ExtensionCheckedBeforeSize(f: File)
    requires !HasVrmExtension(f.name) && f.size > MaxVrmBytes
    ensures HandleFileSelect(Some(f)) == WrongExtension
  {
  }

  /** The size limit is inclusive: a `.vrm` file of exactly 50 MiB passes,
      one byte more fails. */
  lemma SizeLimitIsInclusive(f: File)
    requires HasVrmExtension(f.name)
    ensures f.size == MaxVrmBytes ==> HandleFileSelect(Some(f)) == Forwarded(f)
    ensures f.size == MaxVrmBytes + 1 ==> HandleFileSelect(Some(f)) == TooLarge
  {
  }

  /** The extension test ignores case: any name ending in `.vrm`, `.VRM`,
      `.Vrm`, ... passes it. */
  lemma ExtensionIgnoresCase(stem: string, ext: string)
    requires |ext| == 4 && Lower(ext) == Extension
    ensures HasVrmExtension(stem + ext)
  {
    var name := stem + ext;
    var lower := Lower(name);
    assert lower[|lower| - 4..] == Lower(ext) by {
      forall i | 0 <= i < 4 ensures lower[|lower| - 4..][i] == Lower(ext)[i] {
        assert name[|stem| + i] == ext[i];
      }
    }
  }

  /** Conversely, a name passes only if its last four characters lower-case to `.vrm`. */
  lemma ExtensionNeedsSuffix(name: string)
    requires HasVrmExtension(name)
    ensures |name| >= 4 && Lower(name[|name| - 4..]) == Extension
  {
    var tail := name[|name| - 4..];
    forall i | 0 <= i < 4 ensures Lower(tail)[i] == Extension[i] {
      assert Lower(name)[|name| - 4 + i] == Extension[i];
    }
  }

  /** A file picked from a multi-file selection is validated on its own. */
  lemma FirstFileDecides(files: seq<File>)
    requires |files| > 0
    ensures Callbacks(HandleFileSelect(FirstFile(files))) ==
      if HasVrmExtension(files[0].name) && files[0].size <= MaxVrmBytes then [Some(files[0])] else []
  {
  }
}
