/** VRM settings state (app/hooks/useVRMSettings.ts): the persisted
    follow-camera flag and custom model URL, and the transient file name and
    loading flag. `URL.createObjectURL` supplies the URL as an input. */
module VrmSettingsHook {

  import opened Options
  import opened Types
  import opened LocalStorage

  const VrmStorageKey: string := "vrm-soundscape-vrm"

  const DefaultVrmSettings: map<string, SettingValue> := map["followCamera" := Flag(false)]

  /** `settings.followCamera`; a record without a boolean there reads as false. */
  function FollowCamera(settings: map<string, SettingValue>): (r: bool)
    ensures r <==> "followCamera" in settings && settings["followCamera"] == Flag(true)
  {
    if "followCamera" in settings && settings["followCamera"].Flag? then settings["followCamera"].b else false
  }

  /** `settings.customVRMUrl || null`: a missing, undefined or empty URL is null. */
  function CustomVrmUrl(settings: map<string, SettingValue>): (r: Option<string>)
    ensures r.Some? <==> "customVRMUrl" in settings && settings["customVRMUrl"].Text? &&
                         settings["customVRMUrl"].s.Some? && settings["customVRMUrl"].s.value != ""
    ensures r.Some? ==> settings["customVRMUrl"] == Text(r)
  {
    if "customVRMUrl" in settings && settings["customVRMUrl"].Text? then
      match settings["customVRMUrl"].s
      case Some(u) => if u != "" then Some(u) else None
      case None => None
    else None
  }

  /** The defaults show the bundled model without camera following. */
  lemma DefaultsShowBundledModel()
    ensures !FollowCamera(DefaultVrmSettings) && CustomVrmUrl(DefaultVrmSettings) == None
  {
  }

  /** Choosing a file shows its URL; clearing it goes back to the bundled model. */
  lemma ChangeFileSetsUrl(settings: map<string, SettingValue>, url: string)
    ensures url != "" ==> CustomVrmUrl(Merge(settings, map["customVRMUrl" := Text(Some(url))])) == Some(url)
    ensures CustomVrmUrl(Merge(settings, map["customVRMUrl" := Text(None)])) == None
  {
    assert "customVRMUrl" in Merge(settings, map["customVRMUrl" := Text(Some(url))]);
  }

  /** Changing the follow-camera flag keeps the custom model, and changing
      the model keeps the flag. */
  lemma SettingsAreIndependent(settings: map<string, SettingValue>, b: bool, url: Option<string>)
    ensures CustomVrmUrl(Merge(settings, map["followCamera" := Flag(b)])) == CustomVrmUrl(settings)
    ensures FollowCamera(Merge(settings, map["followCamera" := Flag(b)])) == b
    ensures FollowCamera(Merge(settings, map["customVRMUrl" := Text(url)])) == FollowCamera(settings)
  {
  }

  /** The state of one `useVRMSettings()` hook. */
  class VrmSettingsState {
    const store: LocalStorageHook<map<string, SettingValue>>
    var vrmFileName: Option<string>
    var isVrmLoading: bool

    ghost predicate Valid()
      reads this
    {
      store.key == VrmStorageKey && store.defaultValue == DefaultVrmSettings
    }

    /** The record is written under the VRM key unless there is no window or
        the write throws. */
    twostate predicate Saved(writeFails: bool)
      reads this, store, store.storage
    {
      store.storage.entries ==
        if store.storage.windowDefined && !writeFails then old(store.storage.entries)[VrmStorageKey := store.encode(store.value)]
        else old(store.storage.entries)
    }

    constructor (storage: Storage, encode: map<string, SettingValue> -> string,
                 decode: string -> Option<map<string, SettingValue>>, readFails: bool)
      ensures Valid() && fresh(store) && store.storage == storage
      ensures vrmFileName == None && !isVrmLoading
      ensures store.value == InitialValue(storage.windowDefined, storage.entries, VrmStorageKey, readFails, decode, DefaultVrmSettings)
    {
      store := new LocalStorageHook(VrmStorageKey, DefaultVrmSettings, storage, encode, decode, readFails);
      vrmFileName := None;
      isVrmLoading := false;
    }

    /** `changeFollowCamera`. */
    method ChangeFollowCamera(followCamera: bool, writeFails: bool)
      requires Valid()
      modifies store`value, store.storage`entries
      ensures store.value == old(store.value)["followCamera" := Flag(followCamera)]
      ensures Saved(writeFails)
    {
      UpdateSettings(store, map["followCamera" := Flag(followCamera)], writeFails);
    }

    /** `changeVRMFile`: null goes back to the bundled model and ends the
        loading state; a file gets the fresh object URL `url` and stays
        loading until the viewer reports the model loaded. */
    method ChangeVrmFile(file: Option<File>, url: string, writeFails: bool)
      requires Valid()
      modifies this`vrmFileName, this`isVrmLoading, store`value, store.storage`entries
      ensures file.None? ==> store.value == old(store.value)["customVRMUrl" := Text(None)] &&
                             vrmFileName == None && !isVrmLoading
      ensures file.Some? ==> store.value == old(store.value)["customVRMUrl" := Text(Some(url))] &&
                             vrmFileName == Some(file.value.name) && isVrmLoading
      ensures Saved(writeFails)
    {
      isVrmLoading := true;
      if file.None? {
        UpdateSettings(store, map["customVRMUrl" := Text(None)], writeFails);
        vrmFileName := None;
        isVrmLoading := false;
        return;
      }
      UpdateSettings(store, map["customVRMUrl" := Text(Some(url))], writeFails);
      vrmFileName := Some(file.value.name);
    }

    /** `setVRMLoading`. */
    method SetVrmLoading(loading: bool)
      modifies this`isVrmLoading
      ensures isVrmLoading == loading
    {
      isVrmLoading := loading;
    }
  }
}
