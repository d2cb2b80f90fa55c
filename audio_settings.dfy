/** Audio settings and the preview player (app/hooks/useAudioSettings.ts).
    Each `new Audio(url)` is an element numbered in creation order;
    `sounding` holds the elements still producing sound. */
module AudioSettings {

  import opened Options
  import opened Types
  import opened LocalStorage

  const AudioStorageKey: string := "vrm-soundscape-audio"

  const DefaultAudioSettings: map<string, SettingValue> := map[
    "spatialAudio" := Flag(true),
    "volume" := Number(0.5),
    "audioFiles" := Files([]),
    "selectedAudioId" := Text(None)
  ]

  /** The preview player's state: `elements[k]` is the file the k-th audio
      element was created for, and `alerts` counts the failure alerts shown. */
  datatype Player = Player(currentPlayingAudio: Option<string>, elements: seq<AudioFile>, sounding: set<nat>, alerts: nat)

  const Idle: Player := Player(None, [], {}, 0)

  /** `playAudio(file)` AS WRITTEN: the state is cleared and, for a different
      file, a new element is started; the element already sounding is never
      paused. */
  function PlayAsWritten(p: Player, file: AudioFile): (r: Player)
    ensures p.currentPlayingAudio == Some(file.id) ==> r.currentPlayingAudio == None && r.sounding == p.sounding
    ensures p.currentPlayingAudio != Some(file.id) ==>
      r.currentPlayingAudio == Some(file.id) && r.sounding == p.sounding + {|p.elements|} && r.elements == p.elements + [file]
    ensures r.alerts == p.alerts
  {
    if p.currentPlayingAudio == Some(file.id) then p.(currentPlayingAudio := None)
    else p.(currentPlayingAudio := Some(file.id), elements := p.elements + [file], sounding := p.sounding + {|p.elements|})
  }

  /** `playAudio(file)` as evidently intended ("stop current audio if
      playing"): the sounding element is paused first. */
  function Play(p: Player, file: AudioFile): (r: Player)
    ensures p.currentPlayingAudio == Some(file.id) ==> r.currentPlayingAudio == None && r.sounding == {}
    ensures p.currentPlayingAudio != Some(file.id) ==>
      r.currentPlayingAudio == Some(file.id) && r.sounding == {|p.elements|} && r.elements == p.elements + [file]
    ensures r.alerts == p.alerts
  {
    if p.currentPlayingAudio == Some(file.id) then p.(currentPlayingAudio := None, sounding := {})
    else p.(currentPlayingAudio := Some(file.id), elements := p.elements + [file], sounding := {|p.elements|})
  }

  /** The `ended` listener of element `k` AS WRITTEN: the state is cleared
      whichever element it comes from. */
  function Finished(p: Player, k: nat): (r: Player)
    ensures r.currentPlayingAudio == None && r.elements == p.elements
    ensures r.sounding == p.sounding - {k} && r.alerts == p.alerts
  {
    p.(currentPlayingAudio := None, sounding := p.sounding - {k})
  }

  /** The `error` listener of element `k`, or the rejection of its `play()`,
      AS WRITTEN: the state is cleared and an alert shown for every
      notification, including the rejection a `pause()` causes. */
  function FailedAsWritten(p: Player, k: nat): (r: Player)
    ensures r.currentPlayingAudio == None && r.elements == p.elements
    ensures r.sounding == p.sounding - {k} && r.alerts == p.alerts + 1
  {
    p.(currentPlayingAudio := None, sounding := p.sounding - {k}, alerts := p.alerts + 1)
  }

  /** The `ended` listener as evidently intended: only the sounding element
      ends playback; a notification from any other element is ignored. */
  function Ended(p: Player, k: nat): (r: Player)
    ensures k in p.sounding ==> r == Finished(p, k)
    ensures k !in p.sounding ==> r == p
  {
    if k in p.sounding then Finished(p, k) else p
  }

  /** A failure as evidently intended: one alert per failing sounding
      element; a second notification of the same failure, or the rejection
      of a paused element, is ignored. */
  function Failed(p: Player, k: nat): (r: Player)
    ensures k in p.sounding ==> r == FailedAsWritten(p, k)
    ensures k !in p.sounding ==> r == p
  {
    if k in p.sounding then FailedAsWritten(p, k) else p
  }

  /** Only the element of the file shown as playing makes sound. */
  ghost predicate Coherent(p: Player)
  {
    (forall k :: k in p.sounding ==> k < |p.elements| && Some(p.elements[k].id) == p.currentPlayingAudio) &&
    (forall j, k :: j in p.sounding && k in p.sounding ==> j == k)
  }

  /** The corrected player keeps the state coherent through any plays. */
  lemma PlayKeepsCoherent(p: Player, file: AudioFile)
    requires Coherent(p)
    ensures Coherent(Play(p, file))
  {
  }

  /** Any notification, from any element, keeps the corrected player
      coherent; the sounding element's own notification silences it. */
  lemma NotificationKeepsCoherent(p: Player, k: nat)
    requires Coherent(p)
    ensures Coherent(Ended(p, k)) && Coherent(Failed(p, k))
    ensures k in p.sounding ==> Ended(p, k).sounding == {} && Failed(p, k).sounding == {}
  {
  }

  /** Pressing the button of the playing file silences the corrected player. */
  lemma StopSilences(p: Player, file: AudioFile)
    requires Coherent(p) && p.currentPlayingAudio == Some(file.id)
    ensures Play(p, file).sounding == {} && Play(p, file).currentPlayingAudio == None
  {
  }

  /** As written, pressing "stop" on the playing file clears the state while
      its element keeps sounding. */
  lemma StopKeepsSoundingAsWritten(file: AudioFile)
    ensures var once := PlayAsWritten(Idle, file);
      var twice := PlayAsWritten(once, file);
      twice.currentPlayingAudio == None && 0 in twice.sounding && !Coherent(twice)
  {
    var twice := PlayAsWritten(PlayAsWritten(Idle, file), file);
    assert 0 in twice.sounding && twice.elements[0] == file;
  }

  /** As written, switching files leaves both elements sounding, and the
      superseded one ending clears the state while the new one still plays. */
  lemma SwitchKeepsBothSoundingAsWritten(a: AudioFile, b: AudioFile)
    requires a.id != b.id
    ensures var p := PlayAsWritten(PlayAsWritten(Idle, a), b);
      p.sounding == {0, 1} && p.currentPlayingAudio == Some(b.id) && !Coherent(p) &&
      Finished(p, 0).currentPlayingAudio == None && 1 in Finished(p, 0).sounding
  {
    var p := PlayAsWritten(PlayAsWritten(Idle, a), b);
    assert p.elements[0] == a;
  }

  /** As written, a file that cannot be played notifies twice (its `error`
      event and its rejected `play()`) and shows two alerts. */
  lemma UnplayableFileAlertsTwiceAsWritten(file: AudioFile)
    ensures var p := PlayAsWritten(Idle, file);
      FailedAsWritten(FailedAsWritten(p, 0), 0).alerts == 2
  {
  }

  /** Corrected, the same two notifications show one alert and leave the
      player idle. */
  lemma UnplayableFileAlertsOnce(file: AudioFile)
    ensures var q := Failed(Failed(Play(Idle, file), 0), 0);
      q.alerts == 1 && q.currentPlayingAudio == None && q.sounding == {}
  {
    var p := Play(Idle, file);
    assert 0 in p.sounding;
    assert Failed(p, 0).sounding == {};
  }

  /** Pausing alone is not enough: with the listeners as written, the
      rejection of a paused element's `play()` clears the state and alerts
      while the newly chosen file plays. The corrected listener ignores it. */
  lemma PausedRejectionAsWritten(a: AudioFile, b: AudioFile)
    requires a.id != b.id
    ensures var p := Play(Play(Idle, a), b);
      var q := FailedAsWritten(p, 0);
      q.currentPlayingAudio == None && 1 in q.sounding && q.alerts == 1 && !Coherent(q) &&
      Failed(p, 0) == p
  {
    var p := Play(Play(Idle, a), b);
    assert p.elements[1] == b;
  }

  /** The state of one `useAudioSettings()` hook. */
  class AudioSettingsHook {
    const store: LocalStorageHook<map<string, SettingValue>>
    var player: Player

    ghost predicate Valid()
      reads this
    {
      store.key == AudioStorageKey && store.defaultValue == DefaultAudioSettings && Coherent(player)
    }

    /** The record is written under the audio key unless there is no window
        or the write throws. */
    twostate predicate Saved(writeFails: bool)
      reads this, store, store.storage
    {
      store.storage.entries ==
        if store.storage.windowDefined && !writeFails then old(store.storage.entries)[AudioStorageKey := store.encode(store.value)]
        else old(store.storage.entries)
    }

    constructor (storage: Storage, encode: map<string, SettingValue> -> string,
                 decode: string -> Option<map<string, SettingValue>>, readFails: bool)
      ensures Valid() && player == Idle && fresh(store)
      ensures store.key == AudioStorageKey && store.defaultValue == DefaultAudioSettings && store.storage == storage
      ensures store.value == InitialValue(storage.windowDefined, storage.entries, AudioStorageKey, readFails, decode, DefaultAudioSettings)
    {
      store := new LocalStorageHook(AudioStorageKey, DefaultAudioSettings, storage, encode, decode, readFails);
      player := Idle;
    }

    /** `changeSpatialAudio`, `changeVolume`, `changeAudioFiles` and
        `changeSelectedAudio` each write only their own field. */
    method ChangeSpatialAudio(spatialAudio: bool, writeFails: bool)
      modifies store`value, store.storage`entries
      requires Valid()
      ensures store.value == old(store.value)["spatialAudio" := Flag(spatialAudio)]
      ensures Saved(writeFails)
    {
      UpdateSettings(store, map["spatialAudio" := Flag(spatialAudio)], writeFails);
    }

    method ChangeVolume(volume: real, writeFails: bool)
      modifies store`value, store.storage`entries
      requires Valid()
      ensures store.value == old(store.value)["volume" := Number(volume)]
      ensures Saved(writeFails)
    {
      UpdateSettings(store, map["volume" := Number(volume)], writeFails);
    }

    method ChangeAudioFiles(audioFiles: seq<AudioFile>, writeFails: bool)
      modifies store`value, store.storage`entries
      requires Valid()
      ensures store.value == old(store.value)["audioFiles" := Files(audioFiles)]
      ensures Saved(writeFails)
    {
      UpdateSettings(store, map["audioFiles" := Files(audioFiles)], writeFails);
    }

    method ChangeSelectedAudio(selectedAudioId: Option<string>, writeFails: bool)
      modifies store`value, store.storage`entries
      requires Valid()
      ensures store.value == old(store.value)["selectedAudioId" := Text(selectedAudioId)]
      ensures Saved(writeFails)
    {
      UpdateSettings(store, map["selectedAudioId" := Text(selectedAudioId)], writeFails);
    }

    /** `playAudio(file)`, with the sounding element paused first. */
    method PlayAudio(file: AudioFile)
      requires Valid()
      modifies this`player
      ensures Valid() && player == Play(old(player), file)
    {
      var wasPlaying := player.currentPlayingAudio;
      if wasPlaying.Some? {
        player := player.(currentPlayingAudio := None, sounding := {});
      }
      if wasPlaying == Some(file.id) {
        return;
      }
      player := player.(currentPlayingAudio := Some(file.id), elements := player.elements + [file],
                        sounding := {|player.elements|});
    }

    /** The `ended` listener of element `k`, ignored unless `k` is sounding. */
    method OnEnded(k: nat)
      requires Valid()
      modifies this`player
      ensures Valid() && player == Ended(old(player), k)
    {
      if k !in player.sounding {
        return;
      }
      player := player.(currentPlayingAudio := None, sounding := player.sounding - {k});
    }

    /** The `error` listener of element `k`, or its rejected `play()`: for
        the sounding element the state is cleared and an alert is shown;
        any other notification is ignored. */
    method OnError(k: nat)
      requires Valid()
      modifies this`player
      ensures Valid() && player == Failed(old(player), k)
    {
      if k !in player.sounding {
        return;
      }
      player := player.(currentPlayingAudio := None, sounding := player.sounding - {k}, alerts := player.alerts + 1);
    }
  }
}
