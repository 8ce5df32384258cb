/**
 * The three-field onboarding of `com.mathassistant`: a `PreferenceManager`
 * that stores hobby, grade and country and lets callers set the "setup done"
 * flag directly, and the `SurveyViewModel` that fills it.
 */
module OnboardingSurvey {
  import opened Text
  import opened Preferences

  /** `getUserData()`'s `Triple(hobby, grade, country)`. */
  datatype Answers = Answers(hobby: string, grade: string, country: string)

  /** The file after `saveUserData(hobby, grade, country)`. */
  function SavedAnswers(p: Prefs, a: Answers): Prefs {
    p[KeyHobby := Text(a.hobby)][KeyGrade := Text(a.grade)][KeyCountry := Text(a.country)][KeySetupDone := Flag(true)]
  }

  /** The file after `setSetupDone(isDone)`. */
  function WithSetupDone(p: Prefs, isDone: bool): Prefs {
    p[KeySetupDone := Flag(isDone)]
  }

  /** `getUserData()`: a key never written reads as "". */
  function StoredAnswers(p: Prefs): Answers {
    Answers(GetString(p, KeyHobby, ""), GetString(p, KeyGrade, ""), GetString(p, KeyCountry, ""))
  }

  /** `setSetupDone(b)` then `isSetupDone()` gives `b`, and the answers are untouched. */
  lemma SetSetupDoneThenRead(p: Prefs, isDone: bool)
    ensures SetupDone(WithSetupDone(p, isDone)) == isDone
    ensures StoredAnswers(WithSetupDone(p, isDone)) == StoredAnswers(p)
  {
    assert KeySetupDone != KeyHobby && KeySetupDone != KeyGrade && KeySetupDone != KeyCountry;
  }

  /** `saveUserData(h, g, c)` then `getUserData()` gives `Triple(h, g, c)`, and setup counts as done. */
  lemma SaveAnswersThenRead(p: Prefs, a: Answers)
    ensures StoredAnswers(SavedAnswers(p, a)) == a && SetupDone(SavedAnswers(p, a))
  {
    var q := SavedAnswers(p, a);
    assert q[KeyHobby] == Text(a.hobby) && q[KeyGrade] == Text(a.grade) && q[KeyCountry] == Text(a.country);
  }

  /** A fresh file: setup not done and every answer "". */
  lemma FreshAnswers()
    ensures !SetupDone(map[]) && StoredAnswers(map[]) == Answers("", "", "")
  {
  }

  class PreferenceManager {
    var prefs: Prefs

    constructor (contents: Prefs)
      ensures prefs == contents
    {
      prefs := contents;
    }

    function IsSetupDone(): bool
      reads this
    {
      SetupDone(prefs)
    }

    method SetSetupDone(isDone: bool)
      modifies this
      ensures prefs == WithSetupDone(old(prefs), isDone)
      ensures IsSetupDone() == isDone
    {
      prefs := prefs[KeySetupDone := Flag(isDone)];
    }

    method SaveUserData(hobby: string, grade: string, country: string)
      modifies this
      ensures prefs == SavedAnswers(old(prefs), Answers(hobby, grade, country))
      ensures GetUserData() == Answers(hobby, grade, country) && IsSetupDone()
    {
      var editor := prefs;
      editor := editor[KeyHobby := Text(hobby)];
      editor := editor[KeyGrade := Text(grade)];
      editor := editor[KeyCountry := Text(country)];
      editor := editor[KeySetupDone := Flag(true)];
      prefs := editor;
      SaveAnswersThenRead(old(prefs), Answers(hobby, grade, country));
    }

    function GetUserData(): Answers
      reads this
    {
      StoredAnswers(prefs)
    }
  }

  /** `SurveyUiState` of this version. */
  datatype SurveyUiState = SurveyUiState(
    hobby: string, grade: string, country: string, isComplete: bool, isLoading: bool, folderCreated: bool)

  const Initial := SurveyUiState("", "", "", false, false, false)

  /** The submit condition: no answer blank. */
  predicate Answered(s: SurveyUiState) {
    !IsBlank(s.hobby) && !IsBlank(s.grade) && !IsBlank(s.country)
  }

  function AnswersOf(s: SurveyUiState): Answers {
    Answers(s.hobby, s.grade, s.country)
  }

  datatype Submission = Submission(state: SurveyUiState, prefs: Prefs)

  /** `submitSurvey`: the new state and the preferences file. */
  function Submit(s: SurveyUiState, p: Prefs): Submission {
    if Answered(s) then Submission(s.(isLoading := false, isComplete := true), SavedAnswers(p, AnswersOf(s)))
    else Submission(s, p)
  }

  /** A blank answer blocks the submit entirely; otherwise the answers are persisted and the survey completes. */
  lemma SubmitOutcome(s: SurveyUiState, p: Prefs)
    ensures !Answered(s) ==> Submit(s, p) == Submission(s, p)
    ensures Answered(s) ==> var r := Submit(s, p);
      r.state.isComplete && !r.state.isLoading && AnswersOf(r.state) == AnswersOf(s)
      && r.state.folderCreated == s.folderCreated
      && StoredAnswers(r.prefs) == AnswersOf(s) && SetupDone(r.prefs)
  {
    if Answered(s) {
      SaveAnswersThenRead(p, AnswersOf(s));
    }
  }

  /** Clearing the flag by `setSetupDone(false)` sends the next start back to the survey, answers kept. */
  lemma ResetSendsBackToSurvey(s: SurveyUiState, p: Prefs)
    requires Answered(s)
    ensures var q := WithSetupDone(Submit(s, p).prefs, false);
      !SetupDone(q) && StoredAnswers(q) == AnswersOf(s)
  {
    SubmitOutcome(s, p);
    SetSetupDoneThenRead(Submit(s, p).prefs, false);
  }

  class SurveyViewModel {
    var uiState: SurveyUiState
    const preferenceManager: PreferenceManager

    constructor (preferenceManager: PreferenceManager)
      ensures this.preferenceManager == preferenceManager
      ensures uiState == Initial.(isComplete := preferenceManager.IsSetupDone())
    {
      this.preferenceManager := preferenceManager;
      uiState := Initial;
      new;
      CheckStartupStatus();
    }

    /** Copies the stored flag; the answers stay as they are. */
    method CheckStartupStatus()
      modifies this
      ensures uiState == old(uiState).(isComplete := preferenceManager.IsSetupDone())
    {
      var isDone := preferenceManager.IsSetupDone();
      uiState := uiState.(isComplete := isDone);
    }

    method OnHobbyChange(newValue: string)
      modifies this
      ensures uiState == old(uiState).(hobby := newValue)
    {
      uiState := uiState.(hobby := newValue);
    }

    method OnGradeChange(newValue: string)
      modifies this
      ensures uiState == old(uiState).(grade := newValue)
    {
      uiState := uiState.(grade := newValue);
    }

    method OnCountryChange(newValue: string)
      modifies this
      ensures uiState == old(uiState).(country := newValue)
    {
      uiState := uiState.(country := newValue);
    }

    method SubmitSurvey()
      modifies this, preferenceManager
      ensures Submission(uiState, preferenceManager.prefs) == Submit(old(uiState), old(preferenceManager.prefs))
    {
      var currentState := uiState;
      if !IsBlank(currentState.hobby) && !IsBlank(currentState.grade) && !IsBlank(currentState.country) {
        uiState := currentState.(isLoading := true);
        preferenceManager.SaveUserData(currentState.hobby, currentState.grade, currentState.country);
        uiState := currentState.(isLoading := false, isComplete := true);
      }
    }
  }
}
