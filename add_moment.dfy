/** The "new moment" sheet: a text, photo or voice moment with an optional
    title, the voice recorder with its 20-second cap, and the save buttons
    ("Share with us" and the private one). */
module AddMoment {
  import opened Common
  import opened Uuids
  import opened Moments
  import opened FirebaseSync

  const MaxTitleChars := 40
  const MaxChars := 280

  /** The recorder's timer fires every 0.1 s and stops the recording once
      20 s have elapsed, which is the 200th tick. */
  const MaxRecordingTicks := 200

  /** `canSave`: the title fits in 40 characters, and the kind's content is
      there: 1 to 280 characters of text, a picked photo, or a finished
      recording. */
  function CanSave(kind: MomentKind, title: string, text: string, hasPhoto: bool, hasRecording: bool): (r: bool)
    ensures r ==> |title| <= MaxTitleChars
    ensures kind == Text ==> (r <==> 0 < |text| <= MaxChars && |title| <= MaxTitleChars)
    ensures kind == Photo ==> (r <==> hasPhoto && |title| <= MaxTitleChars)
    ensures kind == Voice ==> (r <==> hasRecording && |title| <= MaxTitleChars)
  {
    var titleValid := |title| <= MaxTitleChars;
    match kind
    case Text => text != "" && |text| <= MaxChars && titleValid
    case Photo => hasPhoto && titleValid
    case Voice => hasRecording && titleValid
  }

  /** A moment carries the content field of its own kind and none of the
      other kinds. */
  predicate CarriesOnlyItsContent(m: Moment)
  {
    (m.text.Some? <==> m.kind == Text)
    && (m.photoPath.Some? ==> m.kind == Photo)
    && (m.audioPath.Some? ==> m.kind == Voice)
  }

  /** The moment `saveMoment` inserts; `photoFile` is the UUID-named file the
      photo data was written to. */
  function SavedMoment(id: Uuid, now: Time, myName: string, kind: MomentKind, title: string, text: string,
                       photoData: Option<seq<Byte>>, photoFile: string, audioPath: Option<string>,
                       isShared: bool): (m: Moment)
    ensures CarriesOnlyItsContent(m)
    ensures m.id == id && m.createdAt == now && m.author == myName && m.kind == kind && m.isShared == isShared
    ensures m.title.None? <==> title == ""
    ensures m.title.Some? ==> m.title.value == title
    ensures kind == Text ==> m.text == Some(text)
    ensures kind == Photo ==> m.photoPath == if photoData.Some? then Some(photoFile) else None
    ensures kind == Voice ==> m.audioPath == audioPath
  {
    var savedPhotoPath := if kind == Photo && photoData.Some? then Some(photoFile) else None;
    var savedAudioPath := if kind == Voice then audioPath else None;
    NewMoment(id, now, myName, kind,
              if title == "" then None else Some(title),
              if kind == Text then Some(text) else None,
              savedAudioPath, savedPhotoPath, isShared)
  }

  /** Whatever the save buttons allow to be saved holds the content of its
      kind: non-empty text of at most 280 characters, the photo's file, or
      the recording's file; and a title of at most 40 characters. */
  lemma SaveAllowedOnlyWithContent(id: Uuid, now: Time, myName: string, kind: MomentKind, title: string,
                                   text: string, photoData: Option<seq<Byte>>, photoFile: string,
                                   hasRecording: bool, audioPath: Option<string>, isShared: bool)
    requires CanSave(kind, title, text, photoData.Some?, hasRecording)
    requires hasRecording ==> audioPath.Some?
    ensures var m := SavedMoment(id, now, myName, kind, title, text, photoData, photoFile, audioPath, isShared);
            && (m.title.Some? ==> 0 < |m.title.value| <= MaxTitleChars)
            && (kind == Text ==> m.text.Some? && 0 < |m.text.value| <= MaxChars)
            && (kind == Photo ==> m.photoPath == Some(photoFile))
            && (kind == Voice ==> m.audioPath.Some?)
  {
  }

  class MomentComposer {
    const myName: string
    var selectedType: MomentKind
    var momentTitle: string
    var momentText: string
    var photoData: Option<seq<Byte>>
    var isRecording: bool
    var recordingTicks: nat
    var hasRecording: bool
    var audioPath: Option<string>

    /** The recorder is idle, recording or holding a recording, never two at
        once; recording or holding one means a file name is set; and the
        time never passes the cap. */
    ghost predicate Valid()
      reads this
    {
      && !(isRecording && hasRecording)
      && (isRecording || hasRecording ==> audioPath.Some?)
      && recordingTicks <= MaxRecordingTicks
      && (isRecording ==> recordingTicks < MaxRecordingTicks)
    }

    constructor (myName: string)
      ensures Valid() && this.myName == myName
      ensures selectedType == Text && momentTitle == "" && momentText == "" && photoData == None
      ensures !isRecording && !hasRecording && recordingTicks == 0 && audioPath == None
    {
      this.myName := myName;
      selectedType, momentTitle, momentText, photoData := Text, "", "", None;
      isRecording, recordingTicks, hasRecording, audioPath := false, 0, false, None;
    }

    /** "Start Recording", shown while there is no recording: `fileName` is
        the UUID-named file; `started` says whether the audio session and
        the recorder came up (if not, nothing changes). */
    method StartRecording(fileName: string, started: bool)
      requires Valid() && !isRecording && !hasRecording
      modifies this
      ensures Valid()
      ensures started ==> isRecording && recordingTicks == 0 && audioPath == Some(fileName) && !hasRecording
      ensures !started ==> isRecording == old(isRecording) && recordingTicks == old(recordingTicks)
                           && audioPath == old(audioPath) && hasRecording == old(hasRecording)
      ensures selectedType == old(selectedType) && momentTitle == old(momentTitle)
      ensures momentText == old(momentText) && photoData == old(photoData)
    {
      if started {
        audioPath := Some(fileName);
        isRecording := true;
        recordingTicks := 0;
      }
    }

    /** One firing of the 0.1 s timer: the 200th stops the recording. */
    method Tick()
      requires Valid() && isRecording
      modifies this
      ensures Valid()
      ensures recordingTicks == old(recordingTicks) + 1
      ensures isRecording <==> recordingTicks < MaxRecordingTicks
      ensures hasRecording <==> recordingTicks == MaxRecordingTicks
      ensures audioPath == old(audioPath)
      ensures selectedType == old(selectedType) && momentTitle == old(momentTitle)
      ensures momentText == old(momentText) && photoData == old(photoData)
    {
      recordingTicks := recordingTicks + 1;
      if recordingTicks >= MaxRecordingTicks {
        StopRecording();
      }
    }

    /** "Stop Recording", shown while recording, and the timer's cap. */
    method StopRecording()
      requires isRecording && !hasRecording && audioPath.Some? && recordingTicks <= MaxRecordingTicks
      modifies this
      ensures Valid()
      ensures !isRecording && hasRecording
      ensures recordingTicks == old(recordingTicks) && audioPath == old(audioPath)
      ensures selectedType == old(selectedType) && momentTitle == old(momentTitle)
      ensures momentText == old(momentText) && photoData == old(photoData)
    {
      isRecording := false;
      hasRecording := true;
    }

    /** The trash button, shown while a recording is held. */
    method DeleteRecording()
      requires Valid() && hasRecording
      modifies this
      ensures Valid()
      ensures !hasRecording && !isRecording && recordingTicks == 0 && audioPath == None
      ensures selectedType == old(selectedType) && momentTitle == old(momentTitle)
      ensures momentText == old(momentText) && photoData == old(photoData)
    {
      hasRecording := false;
      recordingTicks := 0;
      audioPath := None;
    }

    /** `canSave` on the sheet's state. */
    function CanSaveNow(): bool
      reads this
    {
      CanSave(selectedType, momentTitle, momentText, photoData.Some?, hasRecording)
    }

    /** `saveMoment(isShared:)`: one moment is inserted into the local store. */
    method SaveMoment(store: LocalStore, id: Uuid, now: Time, photoFile: string, isShared: bool)
      requires store.Valid()
      modifies store
      ensures store.Valid()
      ensures store.moments == old(store.moments)
                               + [SavedMoment(id, now, myName, selectedType, momentTitle, momentText,
                                              photoData, photoFile, audioPath, isShared)]
      ensures store.signals == old(store.signals) && store.pings == old(store.pings)
      ensures store.bucketItems == old(store.bucketItems) && store.settings == old(store.settings)
    {
      var moment := SavedMoment(id, now, myName, selectedType, momentTitle, momentText,
                                photoData, photoFile, audioPath, isShared);
      store.moments := store.moments + [moment];
    }
  }
}
