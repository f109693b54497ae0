/** The character artwork: the pose images available for a user name. */
module CharacterPoses {
  import opened Common
  import Settings

  const MalikPoses: seq<string> := ["malik_8bit", "malik_moody", "malik_happy"]
  const MayaPoses: seq<string> := ["maya_8bit", "maya_love", "maya_moody"]

  /** `CharacterPoses.poses(for:)`: the malik poses for a name containing
      "malik" (ignoring case), otherwise the maya poses for one containing
      "maya" or "sarah", otherwise none. */
  function PosesFor(name: string): (poses: seq<string>)
    ensures poses == MalikPoses <==> Contains(Lower(name), "malik")
    ensures poses == MayaPoses <==>
              !Contains(Lower(name), "malik") && (Contains(Lower(name), "maya") || Contains(Lower(name), "sarah"))
    ensures poses == [] || |poses| == 3
  {
    if Contains(Lower(name), "malik") then MalikPoses
    else if Contains(Lower(name), "maya") || Contains(Lower(name), "sarah") then MayaPoses
    else []
  }

  /** The pose list and the default pronouns are chosen by the same name
      test: a name gets the malik poses exactly when it gets he/him, and a
      she/her name always has the maya poses. */
  lemma PosesAgreeWithPronouns(name: string)
    ensures PosesFor(name) == MalikPoses <==> Settings.PronounsFor(name) == Settings.HeHim
    ensures Settings.PronounsFor(name) == Settings.SheHer ==> PosesFor(name) == MayaPoses
  {
  }
}
