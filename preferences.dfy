/**
 * `PreferenceManager` over Android `SharedPreferences`, in the five-field
 * version that stores the survey profile (hobby, grade, country, likes,
 * dislikes) and the "setup done" flag. The preferences file is a map from
 * key to stored value; a read of a key that holds nothing (or a value of the
 * other kind) gives the caller's default.
 */
module Preferences {

  datatype PrefValue = Text(text: string) | Flag(flag: bool)

  /** The contents of the `app_preferences` file. */
  type Prefs = map<string, PrefValue>

  const KeySetupDone := "is_setup_done"
  const KeyHobby := "user_hobby"
  const KeyGrade := "user_grade"
  const KeyCountry := "user_country"
  const KeyLikes := "user_likes"
  const KeyDislikes := "user_dislikes"

  /** `getString(key, default) ?: ""`. */
  function GetString(p: Prefs, key: string, default: string): (r: string)
    ensures key !in p ==> r == default
  {
    if key in p && p[key].Text? then p[key].text else default
  }

  /** `getBoolean(key, default)`. */
  function GetBoolean(p: Prefs, key: string, default: bool): (r: bool)
    ensures key !in p ==> r == default
  {
    if key in p && p[key].Flag? then p[key].flag else default
  }

  /** A string written under a key reads back; every other key reads as before. */
  lemma PutStringThenGet(p: Prefs, key: string, v: string, other: string, default: string)
    ensures GetString(p[key := Text(v)], key, default) == v
    ensures other != key ==> GetString(p[key := Text(v)], other, default) == GetString(p, other, default)
  {
  }

  /** `PreferenceManager.UserProfile`. */
  datatype UserProfile = UserProfile(hobby: string, grade: string, country: string, likes: string, dislikes: string)

  /** The keys `saveUserData` writes. */
  predicate ProfileKey(k: string) {
    k == KeySetupDone || k == KeyHobby || k == KeyGrade || k == KeyCountry || k == KeyLikes || k == KeyDislikes
  }

  /** The file after `saveUserData(...)`: five strings and the flag, written in one editor batch. */
  function Saved(p: Prefs, u: UserProfile): Prefs {
    p[KeyHobby := Text(u.hobby)][KeyGrade := Text(u.grade)][KeyCountry := Text(u.country)]
     [KeyLikes := Text(u.likes)][KeyDislikes := Text(u.dislikes)][KeySetupDone := Flag(true)]
  }

  /** `isSetupDone()`: false until something set the flag. */
  function SetupDone(p: Prefs): bool {
    GetBoolean(p, KeySetupDone, false)
  }

  /** `getUserData()`: a field never written reads as "". */
  function Stored(p: Prefs): UserProfile {
    UserProfile(GetString(p, KeyHobby, ""), GetString(p, KeyGrade, ""), GetString(p, KeyCountry, ""),
                GetString(p, KeyLikes, ""), GetString(p, KeyDislikes, ""))
  }

  /** What `saveUserData` writes, `getUserData` reads back, and setup counts as done. */
  lemma SaveThenRead(p: Prefs, u: UserProfile)
    ensures Stored(Saved(p, u)) == u && SetupDone(Saved(p, u))
  {
    var q := Saved(p, u);
    assert q[KeyHobby] == Text(u.hobby) && q[KeyGrade] == Text(u.grade) && q[KeyCountry] == Text(u.country);
    assert q[KeyLikes] == Text(u.likes) && q[KeyDislikes] == Text(u.dislikes);
  }

  /** Saving touches only the profile keys. */
  lemma SaveKeepsOtherKeys(p: Prefs, u: UserProfile, k: string)
    requires !ProfileKey(k)
    ensures k in Saved(p, u) <==> k in p
    ensures k in p ==> Saved(p, u)[k] == p[k]
  {
  }

  /** A fresh preferences file: setup not done, every field "". */
  lemma FreshStore()
    ensures !SetupDone(map[]) && Stored(map[]) == UserProfile("", "", "", "", "")
  {
  }

  class PreferenceManager {
    var prefs: Prefs

    /** Opens the preferences file with the given contents. */
    constructor (contents: Prefs)
      ensures prefs == contents
    {
      prefs := contents;
    }

    function IsSetupDone(): bool
      reads this
    {
      SetupDone(prefs)
    }

    function GetUserData(): UserProfile
      reads this
    {
      Stored(prefs)
    }

    method SaveUserData(hobby: string, grade: string, country: string, likes: string, dislikes: string)
      modifies this
      ensures prefs == Saved(old(prefs), UserProfile(hobby, grade, country, likes, dislikes))
      ensures GetUserData() == UserProfile(hobby, grade, country, likes, dislikes) && IsSetupDone()
    {
      var editor := prefs;
      editor := editor[KeyHobby := Text(hobby)];
      editor := editor[KeyGrade := Text(grade)];
      editor := editor[KeyCountry := Text(country)];
      editor := editor[KeyLikes := Text(likes)];
      editor := editor[KeyDislikes := Text(dislikes)];
      editor := editor[KeySetupDone := Flag(true)];
      prefs := editor;
      SaveThenRead(old(prefs), UserProfile(hobby, grade, country, likes, dislikes));
    }
  }
}
