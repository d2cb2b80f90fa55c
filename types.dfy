/** Records shared by the upload and settings models: the browser's `File`
    and the application's `AudioFile` (app/types/audio.ts). */
module Types {

  import opened Options

  /** A browser `File`: its name, MIME type and size in bytes. */
  datatype File = File(name: string, mimeType: string, size: int)

  /** An uploaded audio entry. */
  datatype AudioFile = AudioFile(id: string, name: string, url: string, size: int)

  /** A value of a persisted settings record. */
  datatype SettingValue = Flag(b: bool) | Number(x: real) | Files(files: seq<AudioFile>) | Text(s: Option<string>)

  /** `files.find(f => f.id === id)`; a null id matches no entry. */
  function FindById(files: seq<AudioFile>, id: Option<string>): (r: Option<AudioFile>)
    ensures r.None? <==> forall k :: 0 <= k < |files| ==> Some(files[k].id) != id
    ensures r.Some? ==> Some(r.value.id) == id && r.value in files
  {
    if files == [] then None
    else if Some(files[0].id) == id then Some(files[0])
    else FindById(files[1..], id)
  }

  /** `k` is the position of the first entry whose id is `id`. */
  ghost predicate FirstWithId(files: seq<AudioFile>, id: Option<string>, k: int)
  {
    0 <= k < |files| && Some(files[k].id) == id &&
    forall j :: 0 <= j < k ==> Some(files[j].id) != id
  }

  /** The entry found is the first one carrying the id. */
  lemma {:induction false} FindByIdIsFirst(files: seq<AudioFile>, id: Option<string>)
    requires FindById(files, id).Some?
    ensures exists k :: FirstWithId(files, id, k) && files[k] == FindById(files, id).value
  {
    if Some(files[0].id) == id {
      assert FirstWithId(files, id, 0);
    } else {
      FindByIdIsFirst(files[1..], id);
      var k :| FirstWithId(files[1..], id, k) && files[1..][k] == FindById(files[1..], id).value;
      assert FirstWithId(files, id, k + 1);
    }
  }
}
