/**
 * The onboarding survey of `com.example.myapplication`: the form state, its
 * validation gate, and two versions of `SurveyViewModel` that differ only in
 * what they load at start-up. Folder creation after the storage permission
 * result runs in a coroutine and is not part of this model.
 */
module Survey {
  import opened Text
  import opened Preferences

  /** `SurveyUiState`. */
  datatype SurveyUiState = SurveyUiState(
    hobby: string, grade: string, country: string, likes: string, dislikes: string,
    isComplete: bool, isLoading: bool, folderCreated: bool, permissionRationaleNeeded: bool)

  const Initial := SurveyUiState("", "", "", "", "", false, false, false, false)

  /** The five text fields of the form. */
  datatype Field = Hobby | Grade | Country | Likes | Dislikes

  function FieldOf(s: SurveyUiState, f: Field): string {
    match f
    case Hobby => s.hobby
    case Grade => s.grade
    case Country => s.country
    case Likes => s.likes
    case Dislikes => s.dislikes
  }

  /** What `onHobbyChange`, `onGradeChange`, ... make of the state. */
  function WithField(s: SurveyUiState, f: Field, v: string): SurveyUiState {
    match f
    case Hobby => s.(hobby := v)
    case Grade => s.(grade := v)
    case Country => s.(country := v)
    case Likes => s.(likes := v)
    case Dislikes => s.(dislikes := v)
  }

  /** A setter changes its own field to the new value and nothing else. */
  lemma SetterChangesOnlyItsField(s: SurveyUiState, f: Field, v: string, g: Field)
    ensures FieldOf(WithField(s, f, v), g) == (if g == f then v else FieldOf(s, g))
    ensures WithField(s, f, v).isComplete == s.isComplete && WithField(s, f, v).isLoading == s.isLoading
    ensures WithField(s, f, v).folderCreated == s.folderCreated
    ensures WithField(s, f, v).permissionRationaleNeeded == s.permissionRationaleNeeded
  {
  }

  /** `isValidInput`: hobby, grade and country must not be blank; likes and dislikes are free. */
  predicate IsValidInput(s: SurveyUiState) {
    !IsBlank(s.hobby) && !IsBlank(s.grade) && !IsBlank(s.country)
  }

  /** The "Complete Setup" button's `enabled` condition in `SurveyScreen`. */
  predicate SubmitEnabled(s: SurveyUiState) {
    !IsBlank(s.hobby) && !IsBlank(s.grade) && !IsBlank(s.country)
  }

  /** The button is enabled exactly when a submit would pass validation. */
  lemma ButtonMatchesValidation(s: SurveyUiState)
    ensures SubmitEnabled(s) <==> IsValidInput(s)
  {
  }

  /** Likes and dislikes never decide validity: blank values may be submitted. */
  lemma LikesAndDislikesFree(s: SurveyUiState, likes: string, dislikes: string)
    ensures IsValidInput(s.(likes := likes, dislikes := dislikes)) <==> IsValidInput(s)
  {
  }

  function ProfileOf(s: SurveyUiState): UserProfile {
    UserProfile(s.hobby, s.grade, s.country, s.likes, s.dislikes)
  }

  /** `submitSurvey`: the new state and the preferences file. */
  datatype Submission = Submission(state: SurveyUiState, prefs: Prefs)

  function Submit(s: SurveyUiState, p: Prefs): Submission {
    if IsValidInput(s) then Submission(s.(isLoading := false, isComplete := true), Saved(p, ProfileOf(s)))
    else Submission(s, p)
  }

  /**
   * A refused submit changes neither the state nor the file; an accepted one
   * persists the snapshot, reads back as it, and leaves the form as it was.
   */
  lemma SubmitOutcome(s: SurveyUiState, p: Prefs)
    ensures !IsValidInput(s) ==> Submit(s, p) == Submission(s, p)
    ensures IsValidInput(s) ==> var r := Submit(s, p);
      r.state.isComplete && !r.state.isLoading && ProfileOf(r.state) == ProfileOf(s)
      && r.state.folderCreated == s.folderCreated && r.state.permissionRationaleNeeded == s.permissionRationaleNeeded
      && Stored(r.prefs) == ProfileOf(s) && SetupDone(r.prefs)
  {
    if IsValidInput(s) {
      SaveThenRead(p, ProfileOf(s));
    }
  }

  /** `checkStartupStatus` in `SurveyViewModel.kt`: a finished setup loads the stored profile. */
  function LoadedAtStartup(p: Prefs): SurveyUiState {
    if SetupDone(p) then
      var u := Stored(p);
      Initial.(isComplete := true, hobby := u.hobby, grade := u.grade, country := u.country,
               likes := u.likes, dislikes := u.dislikes)
    else Initial
  }

  /** `checkStartupStatus` in `SurveyScreen.kt`: only the flag is copied; the form starts empty. */
  function FlagAtStartup(p: Prefs): SurveyUiState {
    Initial.(isComplete := SetupDone(p))
  }

  /** Reopening after a submit: the first version shows the saved answers, the second an empty form. */
  lemma ReopenAfterSubmit(s: SurveyUiState, p: Prefs)
    requires IsValidInput(s)
    ensures var q := Submit(s, p).prefs;
      LoadedAtStartup(q).isComplete && ProfileOf(LoadedAtStartup(q)) == ProfileOf(s)
      && FlagAtStartup(q).isComplete && ProfileOf(FlagAtStartup(q)) == UserProfile("", "", "", "", "")
  {
    SubmitOutcome(s, p);
  }

  /** Every user action the survey view-models handle. */
  datatype Action = Edit(field: Field, value: string) | SubmitSurvey

  function Step(s: SurveyUiState, p: Prefs, a: Action): Submission {
    match a
    case Edit(f, v) => Submission(WithField(s, f, v), p)
    case SubmitSurvey => Submit(s, p)
  }

  function Run(s: SurveyUiState, p: Prefs, actions: seq<Action>): Submission
    decreases |actions|
  {
    if actions == [] then Submission(s, p)
    else
      var r := Step(s, p, actions[0]);
      Run(r.state, r.prefs, actions[1..])
  }

  /** No action sets `isComplete` back to false, however many follow. */
  lemma {:induction false} CompletionIsFinal(s: SurveyUiState, p: Prefs, actions: seq<Action>)
    requires s.isComplete
    ensures Run(s, p, actions).state.isComplete
    decreases |actions|
  {
    if actions != [] {
      var r := Step(s, p, actions[0]);
      assert r.state.isComplete;
      CompletionIsFinal(r.state, r.prefs, actions[1..]);
    }
  }

  /** Once setup is recorded, no later action clears the flag in the file. */
  lemma {:induction false} SetupStaysDone(s: SurveyUiState, p: Prefs, actions: seq<Action>)
    requires SetupDone(p)
    ensures SetupDone(Run(s, p, actions).prefs)
    decreases |actions|
  {
    if actions != [] {
      var r := Step(s, p, actions[0]);
      if actions[0].SubmitSurvey? {
        SubmitOutcome(s, p);
      }
      SetupStaysDone(r.state, r.prefs, actions[1..]);
    }
  }

  /** `SurveyViewModel` in `SurveyViewModel.kt`. */
  class SurveyViewModel {
    var uiState: SurveyUiState
    const preferenceManager: PreferenceManager

    constructor (preferenceManager: PreferenceManager)
      ensures this.preferenceManager == preferenceManager
      ensures uiState == LoadedAtStartup(preferenceManager.prefs)
    {
      this.preferenceManager := preferenceManager;
      uiState := Initial;
      new;
      CheckStartupStatus();
    }

    method CheckStartupStatus()
      requires uiState == Initial
      modifies this
      ensures uiState == LoadedAtStartup(preferenceManager.prefs)
    {
      var isDone := preferenceManager.IsSetupDone();
      if isDone {
        var userData := preferenceManager.GetUserData();
        uiState := uiState.(isComplete := true, hobby := userData.hobby, grade := userData.grade,
                            country := userData.country, likes := userData.likes, dislikes := userData.dislikes);
      }
    }

    method OnHobbyChange(newValue: string)
      modifies this
      ensures uiState == WithField(old(uiState), Hobby, newValue)
    {
      uiState := uiState.(hobby := newValue);
    }

    method OnGradeChange(newValue: string)
      modifies this
      ensures uiState == WithField(old(uiState), Grade, newValue)
    {
      uiState := uiState.(grade := newValue);
    }

    method OnCountryChange(newValue: string)
      modifies this
      ensures uiState == WithField(old(uiState), Country, newValue)
    {
      uiState := uiState.(country := newValue);
    }

    method OnLikesChange(newValue: string)
      modifies this
      ensures uiState == WithField(old(uiState), Likes, newValue)
    {
      uiState := uiState.(likes := newValue);
    }

    method OnDislikesChange(newValue: string)
      modifies this
      ensures uiState == WithField(old(uiState), Dislikes, newValue)
    {
      uiState := uiState.(dislikes := newValue);
    }

    method SubmitSurvey()
      modifies this, preferenceManager
      ensures Submission(uiState, preferenceManager.prefs) == Submit(old(uiState), old(preferenceManager.prefs))
    {
      var currentState := uiState;
      if IsValidInput(currentState) {
        uiState := currentState.(isLoading := true);
        preferenceManager.SaveUserData(currentState.hobby, currentState.grade, currentState.country,
                                       currentState.likes, currentState.dislikes);
        uiState := currentState.(isLoading := false, isComplete := true);
      }
    }
  }

  /** The `SurveyViewModel` embedded in `SurveyScreen.kt`. */
  class SurveyScreenViewModel {
    var uiState: SurveyUiState
    const preferenceManager: PreferenceManager

    constructor (preferenceManager: PreferenceManager)
      ensures this.preferenceManager == preferenceManager
      ensures uiState == FlagAtStartup(preferenceManager.prefs)
    {
      this.preferenceManager := preferenceManager;
      uiState := Initial;
      new;
      CheckStartupStatus();
    }

    method CheckStartupStatus()
      modifies this
      ensures uiState == old(uiState).(isComplete := preferenceManager.IsSetupDone())
    {
      var isDone := preferenceManager.IsSetupDone();
      uiState := uiState.(isComplete := isDone);
    }

    method OnHobbyChange(newValue: string)
      modifies this
      ensures uiState == WithField(old(uiState), Hobby, newValue)
    {
      uiState := uiState.(hobby := newValue);
    }

    method OnGradeChange(newValue: string)
      modifies this
      ensures uiState == WithField(old(uiState), Grade, newValue)
    {
      uiState := uiState.(grade := newValue);
    }

    method OnCountryChange(newValue: string)
      modifies this
      ensures uiState == WithField(old(uiState), Country, newValue)
    {
      uiState := uiState.(country := newValue);
    }

    method OnLikesChange(newValue: string)
      modifies this
      ensures uiState == WithField(old(uiState), Likes, newValue)
    {
      uiState := uiState.(likes := newValue);
    }

    method OnDislikesChange(newValue: string)
      modifies this
      ensures uiState == WithField(old(uiState), Dislikes, newValue)
    {
      uiState := uiState.(dislikes := newValue);
    }

    method SubmitSurvey()
      modifies this, preferenceManager
      ensures Submission(uiState, preferenceManager.prefs) == Submit(old(uiState), old(preferenceManager.prefs))
    {
      var currentState := uiState;
      if IsValidInput(currentState) {
        uiState := currentState.(isLoading := true);
        preferenceManager.SaveUserData(currentState.hobby, currentState.grade, currentState.country,
                                       currentState.likes, currentState.dislikes);
        uiState := currentState.(isLoading := false, isComplete := true);
      }
    }
  }
}
