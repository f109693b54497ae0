/** Per-user settings: a nickname, the chosen character pose and the pronouns
    picked from the user name when the record is created. */
module Settings {
  import opened Common
  import opened Uuids

  datatype Pronouns = Pronouns(subject: string, object: string, possessive: string, contraction: string)

  const HeHim := Pronouns("he", "him", "his", "he's")
  const SheHer := Pronouns("she", "her", "her", "she's")
  const TheyThem := Pronouns("they", "them", "their", "they're")

  /** The pronouns `init` assigns: a name containing "malik" (ignoring case)
      gets he/him, otherwise one containing "maya" gets she/her, any other
      name they/them. */
  function PronounsFor(userName: string): (p: Pronouns)
    ensures p == HeHim <==> Contains(Lower(userName), "malik")
    ensures p == SheHer <==> !Contains(Lower(userName), "malik") && Contains(Lower(userName), "maya")
    ensures p == TheyThem <==> !Contains(Lower(userName), "malik") && !Contains(Lower(userName), "maya")
  {
    if Contains(Lower(userName), "malik") then HeHim
    else if Contains(Lower(userName), "maya") then SheHer
    else TheyThem
  }

  /** The choice ignores case: a name and its lower-case form get the same
      pronouns. */
  lemma PronounsIgnoreCase(userName: string)
    ensures PronounsFor(Lower(userName)) == PronounsFor(userName)
  {
    LowerIdempotent(userName);
  }

  /** The two users of the app: "Malik" is he/him and "Maya" is she/her. */
  lemma PronounsOfTheTwoUsers()
    ensures PronounsFor("Malik") == HeHim
    ensures PronounsFor("Maya") == SheHer
  {
    var malik := Lower("Malik");
    assert malik[0] == 'm' && malik[1] == 'a' && malik[2] == 'l' && malik[3] == 'i' && malik[4] == 'k';
    assert malik == "malik";
    assert OccursAt(malik, "malik", 0);
    var maya := Lower("Maya");
    assert maya[0] == 'm' && maya[1] == 'a' && maya[2] == 'y' && maya[3] == 'a';
    assert maya == "maya";
    assert OccursAt(maya, "maya", 0);
  }

  /** The persisted fields of a settings record. */
  datatype SettingsData = SettingsData(
    id: Uuid,
    userName: string,
    nickname: Option<string>,
    currentPoseIndex: int,
    pronouns: Pronouns,
    updatedAt: Time)

  /** `UserSettings.init`. */
  function NewSettings(id: Uuid, userName: string, nickname: Option<string>, currentPoseIndex: int,
                       now: Time): (d: SettingsData)
    ensures d.id == id && d.userName == userName && d.nickname == nickname
    ensures d.currentPoseIndex == currentPoseIndex && d.updatedAt == now
    ensures d.pronouns == PronounsFor(userName)
  {
    SettingsData(id, userName, nickname, currentPoseIndex, PronounsFor(userName), now)
  }

  /** The effect of `updatePose(to:)` at time `now`. */
  function WithPose(d: SettingsData, index: int, now: Time): (r: SettingsData)
    ensures r.currentPoseIndex == index && r.updatedAt == now
    ensures r.id == d.id && r.userName == d.userName && r.nickname == d.nickname && r.pronouns == d.pronouns
  {
    d.(currentPoseIndex := index, updatedAt := now)
  }

  /** The effect of `updateNickname(to:)` at time `now`; nil clears it. */
  function WithNickname(d: SettingsData, nickname: Option<string>, now: Time): (r: SettingsData)
    ensures r.nickname == nickname && r.updatedAt == now
    ensures r.id == d.id && r.userName == d.userName && r.currentPoseIndex == d.currentPoseIndex
    ensures r.pronouns == d.pronouns
  {
    d.(nickname := nickname, updatedAt := now)
  }

  class UserSettings {
    var id: Uuid
    var userName: string
    var nickname: Option<string>
    var currentPoseIndex: int
    var pronounSubject: string
    var pronounObject: string
    var pronounPossessive: string
    var pronounContraction: string
    var updatedAt: Time

    function Data(): SettingsData
      reads this
    {
      SettingsData(id, userName, nickname, currentPoseIndex,
                   Pronouns(pronounSubject, pronounObject, pronounPossessive, pronounContraction), updatedAt)
    }

    constructor (id: Uuid, userName: string, nickname: Option<string> := None, currentPoseIndex: int := 0, now: Time)
      ensures Data() == NewSettings(id, userName, nickname, currentPoseIndex, now)
    {
      this.id := id;
      this.userName := userName;
      this.nickname := nickname;
      this.currentPoseIndex := currentPoseIndex;
      this.updatedAt := now;
      if Contains(Lower(userName), "malik") {
        pronounSubject, pronounObject, pronounPossessive, pronounContraction := "he", "him", "his", "he's";
      } else if Contains(Lower(userName), "maya") {
        pronounSubject, pronounObject, pronounPossessive, pronounContraction := "she", "her", "her", "she's";
      } else {
        pronounSubject, pronounObject, pronounPossessive, pronounContraction := "they", "them", "their", "they're";
      }
    }

    method UpdatePose(index: int, now: Time)
      modifies this
      ensures Data() == WithPose(old(Data()), index, now)
    {
      currentPoseIndex := index;
      updatedAt := now;
    }

    method UpdateNickname(nickname: Option<string>, now: Time)
      modifies this
      ensures Data() == WithNickname(old(Data()), nickname, now)
    {
      this.nickname := nickname;
      updatedAt := now;
    }
  }
}
