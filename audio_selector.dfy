/** The audio drop-down (app/components/ui/AudioSelector.tsx): file-name
    truncation, the selected-entry lookup and the open/closed flag. */
module AudioSelector {

  import opened Options
  import opened Types

  /** The `maxLength` default of `truncateFileName`. */
  const DefaultMaxLength: int := 20

  const Ellipsis: string := "..."

  /** `truncateFileName(name, maxLength)`. `substring` clamps a negative end
      to 0, so a `maxLength` below 3 keeps no characters of a long name. */
  function TruncateFileName(name: string, maxLength: int := DefaultMaxLength): (r: string)
    ensures |name| <= maxLength ==> r == name
    ensures |name| > maxLength ==> |r| >= 3 && r[|r| - 3..] == Ellipsis
    ensures |name| > maxLength && maxLength >= 3 ==> |r| == maxLength && r[..maxLength - 3] == name[..maxLength - 3]
    ensures |name| > maxLength && maxLength < 3 ==> r == Ellipsis
  {
    if |name| <= maxLength then name
    else
      var keep := if maxLength - 3 < 0 then 0 else maxLength - 3;
      name[..keep] + Ellipsis
  }

  /** For `maxLength >= 3` the shown name never exceeds `maxLength`. */
  lemma TruncatedFits(name: string, maxLength: int)
    requires maxLength >= 3
    ensures |TruncateFileName(name, maxLength)| <= maxLength
  {
  }

  /** Truncation is idempotent for `maxLength >= 3`. */
  lemma TruncateIdempotent(name: string, maxLength: int)
    requires maxLength >= 3
    ensures TruncateFileName(TruncateFileName(name, maxLength), maxLength) == TruncateFileName(name, maxLength)
  {
  }

  /** What the button shows: the truncated name of `selectedAudio` (the first
      entry with the selected id), or the default-voice label when nothing
      (or a stale id) is selected. */
  datatype Label = Named(text: string) | DefaultVoice

  function ButtonLabel(audioFiles: seq<AudioFile>, selectedAudioId: Option<string>): (r: Label)
    ensures r == DefaultVoice <==> forall k :: 0 <= k < |audioFiles| ==> Some(audioFiles[k].id) != selectedAudioId
    ensures r.Named? ==> |r.text| <= DefaultMaxLength
  {
    match FindById(audioFiles, selectedAudioId)
    case Some(a) => Named(TruncateFileName(a.name))
    case None => DefaultVoice
  }

  /** The drop-down's `isOpen` state; `selections` records every
      `onAudioSelect` argument. */
  class Dropdown {
    var isOpen: bool
    var selections: seq<Option<string>>

    constructor ()
      ensures !isOpen && selections == []
    {
      isOpen := false;
      selections := [];
    }

    /** `handleSelect(id)`: forward the id (null for the default voice) and close. */
    method HandleSelect(audioId: Option<string>)
      modifies this
      ensures selections == old(selections) + [audioId]
      ensures !isOpen
    {
      selections := selections + [audioId];
      isOpen := false;
    }

    /** The button's click handler: flips `isOpen` unless disabled. */
    method Toggle(disabled: bool)
      modifies this`isOpen
      ensures isOpen == if disabled then old(isOpen) else !old(isOpen)
    {
      if !disabled {
        isOpen := !isOpen;
      }
    }

    /** A mouse-down anywhere in the document: closes unless it is inside. */
    method MouseDownElsewhere(insideDropdown: bool)
      modifies this`isOpen
      ensures isOpen == (old(isOpen) && insideDropdown)
    {
      if !insideDropdown {
        isOpen := false;
      }
    }
  }
}
