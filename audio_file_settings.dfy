/** The audio upload list (app/components/settings/AudioFileSettings.tsx):
    the selection loop with its type, size and capacity rules, removal by
    id and clearing. Fresh ids (`generateId`) and object URLs
    (`URL.createObjectURL`) arrive as inputs, one per accepted file. */
module AudioFileSettings {

  import opened Options
  import opened Types

  /** Largest accepted audio file: 100 MiB. */
  const MaxAudioBytes: int := 100 * 1024 * 1024

  /** The `maxFiles` default. */
  const DefaultMaxFiles: int := 10

  /** `file.type.startsWith('audio/')`. */
  predicate IsAudio(f: File)
  {
    "audio/" <= f.mimeType
  }

  /** A file that passes the type and size tests. */
  predicate Admissible(f: File)
  {
    IsAudio(f) && f.size <= MaxAudioBytes
  }

  /** The alerts the selection loop raises. */
  datatype Alert = NotAudio(name: string) | AudioTooLarge(name: string) | TooManyFiles(maxFiles: int)

  /** The files the loop accepts from `files` when `count` entries are
      already held: inadmissible files are skipped, and the first admissible
      file met at capacity ends the loop. */
  function Accepted(files: seq<File>, count: int, maxFiles: int): seq<File>
  {
    if files == [] then []
    else if !Admissible(files[0]) then Accepted(files[1..], count, maxFiles)
    else if count >= maxFiles then []
    else [files[0]] + Accepted(files[1..], count + 1, maxFiles)
  }

  /** The alerts raised along the way, in order. */
  function Alerts(files: seq<File>, count: int, maxFiles: int): seq<Alert>
  {
    if files == [] then []
    else if !IsAudio(files[0]) then [NotAudio(files[0].name)] + Alerts(files[1..], count, maxFiles)
    else if files[0].size > MaxAudioBytes then [AudioTooLarge(files[0].name)] + Alerts(files[1..], count, maxFiles)
    else if count >= maxFiles then [TooManyFiles(maxFiles)]
    else Alerts(files[1..], count + 1, maxFiles)
  }

  /** The entries built for the accepted files. */
  ghost predicate EntriesFor(entries: seq<AudioFile>, accepted: seq<File>, ids: seq<string>, urls: seq<string>)
  {
    |entries| == |accepted| <= |ids| && |accepted| <= |urls| &&
    forall k :: 0 <= k < |entries| ==>
      entries[k] == AudioFile(ids[k], accepted[k].name, urls[k], accepted[k].size)
  }

  /** `a` occurs in `b` in the same order, possibly with gaps. */
  ghost predicate Subsequence<T>(a: seq<T>, b: seq<T>)
    decreases |b|
  {
    a == [] || (b != [] && ((a[0] == b[0] && Subsequence(a[1..], b[1..])) || Subsequence(a, b[1..])))
  }

  /** `handleFileSelect`: returns the new entries, the alerts raised, and the
      list passed to `onAudioFilesChange` (none when nothing was accepted). */
  method HandleFileSelect(audioFiles: seq<AudioFile>, maxFiles: int, files: seq<File>,
                          ids: seq<string>, urls: seq<string>)
    returns (newFiles: seq<AudioFile>, alerts: seq<Alert>, change: Option<seq<AudioFile>>)
    requires |ids| >= |files| && |urls| >= |files|
    ensures EntriesFor(newFiles, Accepted(files, |audioFiles|, maxFiles), ids, urls)
    ensures alerts == Alerts(files, |audioFiles|, maxFiles)
    ensures change == if newFiles == [] then None else Some(audioFiles + newFiles)
  {
    newFiles, alerts := [], [];
    ghost var taken: seq<File> := [];
    var i := 0;
    while i < |files|
      invariant 0 <= i <= |files| && |taken| <= i
      invariant EntriesFor(newFiles, taken, ids, urls)
      invariant Accepted(files, |audioFiles|, maxFiles) ==
        taken + Accepted(files[i..], |audioFiles| + |newFiles|, maxFiles)
      invariant Alerts(files, |audioFiles|, maxFiles) ==
        alerts + Alerts(files[i..], |audioFiles| + |newFiles|, maxFiles)
    {
      var file := files[i];
      assert files[i..][0] == file && files[i..][1..] == files[i + 1..];
      if !("audio/" <= file.mimeType) {
        alerts := alerts + [NotAudio(file.name)];
        i := i + 1;
        continue;
      }
      if file.size > 100 * 1024 * 1024 {
        alerts := alerts + [AudioTooLarge(file.name)];
        i := i + 1;
        continue;
      }
      if |audioFiles| + |newFiles| >= maxFiles {
        alerts := alerts + [TooManyFiles(maxFiles)];
        assert Alerts(files[i..], |audioFiles| + |newFiles|, maxFiles) == [TooManyFiles(maxFiles)];
        assert Accepted(files[i..], |audioFiles| + |newFiles|, maxFiles) == [];
        i := |files|;
        assert files[i..] == [];
        break;
      }
      newFiles := newFiles + [AudioFile(ids[|newFiles|], file.name, urls[|newFiles|], file.size)];
      taken := taken + [file];
      i := i + 1;
    }
    assert files[|files|..] == [];
    change := if |newFiles| > 0 then Some(audioFiles + newFiles) else None;
  }

  /** Every accepted file is an audio file of at most 100 MiB. */
  lemma {:induction false} AcceptedAreAdmissible(files: seq<File>, count: int, maxFiles: int)
    ensures forall f :: f in Accepted(files, count, maxFiles) ==> Admissible(f)
  {
    if files != [] {
      AcceptedAreAdmissible(files[1..], count + 1, maxFiles);
      AcceptedAreAdmissible(files[1..], count, maxFiles);
    }
  }

  /** The list never grows past `maxFiles`, and a list already at or over
      capacity does not grow at all. */
  lemma {:induction false} AcceptedWithinCapacity(files: seq<File>, count: int, maxFiles: int)
    ensures count < maxFiles ==> count + |Accepted(files, count, maxFiles)| <= maxFiles
    ensures count >= maxFiles ==> Accepted(files, count, maxFiles) == []
  {
    if files != [] {
      AcceptedWithinCapacity(files[1..], count + 1, maxFiles);
      AcceptedWithinCapacity(files[1..], count, maxFiles);
    }
  }

  /** Accepted files keep their input order. */
  lemma {:induction false} AcceptedKeepsOrder(files: seq<File>, count: int, maxFiles: int)
    ensures Subsequence(Accepted(files, count, maxFiles), files)
  {
    if files != [] {
      var acc := Accepted(files, count, maxFiles);
      if !Admissible(files[0]) {
        AcceptedKeepsOrder(files[1..], count, maxFiles);
      } else if count < maxFiles {
        AcceptedKeepsOrder(files[1..], count + 1, maxFiles);
        assert acc[0] == files[0] && acc[1..] == Accepted(files[1..], count + 1, maxFiles);
      }
    }
  }

  /** With room for everything, exactly the admissible files are accepted. */
  lemma {:induction false} AcceptedWhenRoom(files: seq<File>, count: int, maxFiles: int)
    requires count + |files| <= maxFiles
    ensures Accepted(files, count, maxFiles) == Filter(files)
  {
    if files != [] {
      AcceptedWhenRoom(files[1..], count + 1, maxFiles);
      AcceptedWhenRoom(files[1..], count, maxFiles);
    }
  }

  /** The admissible files of `files`, in order. */
  function Filter(files: seq<File>): seq<File>
  {
    if files == [] then []
    else if Admissible(files[0]) then [files[0]] + Filter(files[1..])
    else Filter(files[1..])
  }

  /** The capacity test runs after the type and size tests: a selection
      without admissible files raises no capacity alert, however full the
      list is, and one alert per rejected file. */
  lemma {:induction false} NoCapacityAlertWithoutAdmissibleFile(files: seq<File>, count: int, maxFiles: int)
    requires forall f :: f in files ==> !Admissible(f)
    ensures TooManyFiles(maxFiles) !in Alerts(files, count, maxFiles)
    ensures |Alerts(files, count, maxFiles)| == |files|
  {
    if files != [] {
      assert files[0] in files;
      assert forall f :: f in files[1..] ==> f in files;
      NoCapacityAlertWithoutAdmissibleFile(files[1..], count, maxFiles);
    }
  }

  /** The list handed to `onAudioFilesChange` keeps the existing entries in
      front and is at most max(existing, maxFiles) long. */
  lemma ChangeWithinCapacity(audioFiles: seq<AudioFile>, maxFiles: int, files: seq<File>,
                             newFiles: seq<AudioFile>, ids: seq<string>, urls: seq<string>)
    requires EntriesFor(newFiles, Accepted(files, |audioFiles|, maxFiles), ids, urls)
    ensures |audioFiles + newFiles| <= if |audioFiles| < maxFiles then maxFiles else |audioFiles|
    ensures (audioFiles + newFiles)[..|audioFiles|] == audioFiles
  {
    AcceptedWithinCapacity(files, |audioFiles|, maxFiles);
  }

  /** `audioFiles.filter(file => file.id !== id)`. */
  function RemoveById(files: seq<AudioFile>, id: string): (r: seq<AudioFile>)
    ensures forall f :: f in r <==> f in files && f.id != id
    ensures |r| <= |files|
  {
    if files == [] then []
    else if files[0].id != id then [files[0]] + RemoveById(files[1..], id)
    else RemoveById(files[1..], id)
  }

  /** Removal works piecewise, so the surviving entries keep their order. */
  lemma {:induction false} RemoveByIdDistributes(a: seq<AudioFile>, b: seq<AudioFile>, id: string)
    ensures RemoveById(a + b, id) == RemoveById(a, id) + RemoveById(b, id)
  {
    if a == [] {
      assert a + b == b;
    } else {
      assert (a + b)[0] == a[0] && (a + b)[1..] == a[1..] + b;
      RemoveByIdDistributes(a[1..], b, id);
    }
  }

  /** Removing an id that no entry carries changes nothing, and removing
      twice is the same as removing once. */
  lemma {:induction false} RemoveByIdIdempotent(files: seq<AudioFile>, id: string)
    ensures RemoveById(RemoveById(files, id), id) == RemoveById(files, id)
    ensures (forall f :: f in files ==> f.id != id) ==> RemoveById(files, id) == files
  {
    if files != [] {
      RemoveByIdIdempotent(files[1..], id);
      assert forall f :: f in files[1..] ==> f in files;
    }
  }

  /** `removeAudioFile(id)`: the list passed on, and the object URL revoked
      (that of the first entry with the id, if any). */
  method RemoveAudioFile(audioFiles: seq<AudioFile>, id: string)
    returns (updated: seq<AudioFile>, revoked: Option<string>)
    ensures forall f :: f in updated <==> f in audioFiles && f.id != id
    ensures updated == RemoveById(audioFiles, id)
    ensures revoked.Some? <==> exists f :: f in audioFiles && f.id == id
    ensures revoked.Some? ==> revoked == Some(FindById(audioFiles, Some(id)).value.url)
  {
    updated := RemoveById(audioFiles, id);
    var found := FindById(audioFiles, Some(id));
    revoked := if found.Some? then Some(found.value.url) else None;
    assert forall f :: f in audioFiles && f.id == id ==> found.Some? by {
      forall f | f in audioFiles && f.id == id ensures found.Some? {
        var k :| 0 <= k < |audioFiles| && audioFiles[k] == f;
      }
    }
  }

  /** `clearAllFiles`: every entry's URL is revoked in list order and the
      empty list is passed on. */
  method ClearAllFiles(audioFiles: seq<AudioFile>) returns (updated: seq<AudioFile>, revoked: seq<string>)
    ensures updated == []
    ensures |revoked| == |audioFiles|
    ensures forall k :: 0 <= k < |audioFiles| ==> revoked[k] == audioFiles[k].url
  {
    revoked := [];
    for i := 0 to |audioFiles|
      invariant |revoked| == i
      invariant forall k :: 0 <= k < i ==> revoked[k] == audioFiles[k].url
    {
      revoked := revoked + [audioFiles[i].url];
    }
    updated := [];
  }
}
