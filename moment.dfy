/** Moments: a note, photo or voice clip by one author, optionally shared with
    the partner. The record is only ever built by its initializer. */
module Moments {
  import opened Common
  import opened Uuids

  datatype MomentKind = Text | Voice | Photo

  /** The `String` raw value of each kind. */
  function KindRawValue(k: MomentKind): string
  {
    match k
    case Text => "text"
    case Voice => "voice"
    case Photo => "photo"
  }

  /** `MomentKind(rawValue:)`. */
  function ParseKind(raw: string): (r: Option<MomentKind>)
    ensures r.Some? ==> KindRawValue(r.value) == raw
    ensures r.None? ==> raw != "text" && raw != "voice" && raw != "photo"
  {
    if raw == "text" then Some(Text)
    else if raw == "voice" then Some(Voice)
    else if raw == "photo" then Some(Photo)
    else None
  }

  /** Parsing the raw value of a kind gives the kind back. */
  lemma ParseKindRawValue(k: MomentKind)
    ensures ParseKind(KindRawValue(k)) == Some(k)
  {
  }

  datatype Moment = Moment(
    id: Uuid,
    createdAt: Time,
    author: string,
    kind: MomentKind,
    title: Option<string>,
    text: Option<string>,
    audioPath: Option<string>,
    photoPath: Option<string>,
    isShared: bool)

  /** `Moment.init`: the generated id and the current time are parameters;
      the optional content fields default to nil. */
  function NewMoment(id: Uuid, now: Time, author: string, kind: MomentKind,
                     title: Option<string> := None, text: Option<string> := None,
                     audioPath: Option<string> := None, photoPath: Option<string> := None,
                     isShared: bool): Moment
  {
    Moment(id, now, author, kind, title, text, audioPath, photoPath, isShared)
  }

  /** The initializer stores its arguments as given, and content arguments
      left out are nil. */
  lemma NewMomentFields(id: Uuid, now: Time, author: string, kind: MomentKind, title: Option<string>,
                        text: Option<string>, audioPath: Option<string>, photoPath: Option<string>, isShared: bool)
    ensures var m := NewMoment(id, now, author, kind, title, text, audioPath, photoPath, isShared);
            m.id == id && m.createdAt == now && m.author == author && m.kind == kind && m.title == title
            && m.text == text && m.audioPath == audioPath && m.photoPath == photoPath && m.isShared == isShared
    ensures var m := NewMoment(id, now, author, kind, isShared := isShared);
            m.title == None && m.text == None && m.audioPath == None && m.photoPath == None
  {
  }
}
