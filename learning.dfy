/**
 * `LearningViewModel`: the chat history of a tutoring session, the selected
 * learning phase, and the pocket calculator shown beside the chat. Message
 * ids and timestamps, and the reply that arrives asynchronously after
 * `sendMessage`, are not part of this model.
 */
module Learning {
  import opened Text
  import opened Wrappers
  import opened Templates
  import opened Preferences
  import opened SimpleCalculator
  import CalculatorScreen

  /** `ChatMessageUi` without its random id and its timestamp. */
  datatype ChatMessageUi = ChatMessageUi(text: string, isUser: bool)

  /** `LearningUiState`. */
  datatype LearningUiState = LearningUiState(
    messages: seq<ChatMessageUi>,
    currentPhase: LearningPhase,
    isLoading: bool,
    error: Option<string>,
    userHobby: string,
    isCalculatorVisible: bool,
    calcExpression: string,
    calcResult: string)

  const Initial := LearningUiState([], Summary, false, None, "", false, "", "")

  /** The professor's greeting, a template filled with the hobby. */
  function WelcomeMessage(hobby: string, lit: Literals): string {
    Render(Block(Welcome, [hobby]), lit)
  }

  /** The state `initializeSession` leaves: the stored hobby and the greeting as the only message. */
  function SessionStart(u: UserProfile, lit: Literals): LearningUiState {
    Initial.(userHobby := u.hobby, messages := [ChatMessageUi(WelcomeMessage(u.hobby, lit), false)])
  }

  /** The greeting names the student's hobby. */
  lemma WelcomeMentionsHobby(u: UserProfile, lit: Literals)
    ensures |SessionStart(u, lit).messages| == 1 && !SessionStart(u, lit).messages[0].isUser
    ensures Occurs(u.hobby, SessionStart(u, lit).messages[0].text)
  {
    RenderShowsArguments(Block(Welcome, [u.hobby]), lit, 0);
  }

  /** The keys this calculator completes with `(`: not `sqrt`. */
  predicate IsTrigKey(input: string) {
    input == "sin" || input == "cos" || input == "tan"
  }

  /** The state after `onCalculatorInput(input)`. */
  function CalculatorInput<R>(s: LearningUiState, input: string, ar: Arith<R>): LearningUiState {
    if input == "C" then s.(calcResult := "", calcExpression := "")
    else if input == "DEL" then s.(calcExpression := DropLast(s.calcExpression))
    else if input == "=" then s.(calcResult := Evaluation(s.calcExpression, ar))
    else if IsTrigKey(input) then s.(calcExpression := s.calcExpression + input + "(")
    else s.(calcExpression := s.calcExpression + input)
  }

  /** The calculator part of the state, as the feature screen holds it. */
  function Keypad(s: LearningUiState): CalculatorScreen.CalculatorUiState {
    CalculatorScreen.CalculatorUiState(s.calcExpression, s.calcResult)
  }

  /** Calculator keys touch only the calculator fields. */
  lemma CalculatorKeysStayInside<R>(s: LearningUiState, input: string, ar: Arith<R>)
    ensures CalculatorInput(s, input, ar) == s.(calcExpression := CalculatorInput(s, input, ar).calcExpression,
                                                calcResult := CalculatorInput(s, input, ar).calcResult)
  {
  }

  /**
   * The two keypads agree on every key except in two cases: "sqrt" (appended
   * here without `(`) and "=" on an empty expression (which here sets the
   * result to "" instead of doing nothing).
   */
  lemma KeypadsAgree<R>(s: LearningUiState, input: string, ar: Arith<R>)
    requires input != "sqrt" && !(input == "=" && s.calcExpression == "")
    ensures Keypad(CalculatorInput(s, input, ar)) == CalculatorScreen.AfterInput(Keypad(s), input, ar)
  {
    if input == "DEL" && s.calcExpression == "" {
      assert DropLast(s.calcExpression) == s.calcExpression;
    }
  }

  /** Where the keypads differ, shown on states where the difference is visible. */
  lemma KeypadsDiffer<R>(s: LearningUiState, ar: Arith<R>)
    ensures CalculatorInput(s, "sqrt", ar).calcExpression == s.calcExpression + "sqrt"
    ensures CalculatorScreen.AfterInput(Keypad(s), "sqrt", ar).expression == s.calcExpression + "sqrt("
    ensures s.calcExpression == "" ==>
      CalculatorInput(s, "=", ar).calcResult == "" && CalculatorScreen.AfterInput(Keypad(s), "=", ar) == Keypad(s)
  {
    assert !IsTrigKey("sqrt");
    assert CalculatorScreen.IsFunctionKey("sqrt");
    if s.calcExpression == "" {
      assert IsBlank(s.calcExpression);
    }
  }

  /** Every message action handled before the reply arrives. */
  datatype Action =
    | SelectPhase(phase: LearningPhase)
    | Send(text: string)
    | ToggleCalculator
    | CalculatorKey(input: string)

  /** `sendMessage(text)` up to the asynchronous request. */
  function SendPrefix(s: LearningUiState, text: string): LearningUiState {
    if IsBlank(text) then s
    else s.(messages := s.messages + [ChatMessageUi(text, true)], isLoading := true, error := None)
  }

  function Step<R>(s: LearningUiState, a: Action, ar: Arith<R>): LearningUiState {
    match a
    case SelectPhase(p) => s.(currentPhase := p)
    case Send(text) => SendPrefix(s, text)
    case ToggleCalculator => s.(isCalculatorVisible := !s.isCalculatorVisible)
    case CalculatorKey(input) => CalculatorInput(s, input, ar)
  }

  function Run<R>(s: LearningUiState, actions: seq<Action>, ar: Arith<R>): LearningUiState
    decreases |actions|
  {
    if actions == [] then s else Run(Step(s, actions[0], ar), actions[1..], ar)
  }

  /** Blank text changes nothing; otherwise exactly the user's message is added and loading starts. */
  lemma SendOutcome(s: LearningUiState, text: string)
    ensures IsBlank(text) ==> SendPrefix(s, text) == s
    ensures !IsBlank(text) ==> var t := SendPrefix(s, text);
      |t.messages| == |s.messages| + 1 && t.messages[..|s.messages|] == s.messages
      && t.messages[|s.messages|] == ChatMessageUi(text, true) && t.isLoading && t.error == None
      && t.currentPhase == s.currentPhase && Keypad(t) == Keypad(s)
  {
    if !IsBlank(text) {
      assert SendPrefix(s, text).messages[..|s.messages|] == s.messages;
    }
  }

  /** Toggling twice restores the state. */
  lemma ToggleTwice<R>(s: LearningUiState, ar: Arith<R>)
    ensures Run(s, [ToggleCalculator, ToggleCalculator], ar) == s
  {
    assert [ToggleCalculator, ToggleCalculator][1..] == [ToggleCalculator];
  }

  /** The history only grows: whatever happens, earlier messages stay, in order. */
  lemma {:induction false} HistoryOnlyGrows<R>(s: LearningUiState, actions: seq<Action>, ar: Arith<R>)
    ensures var t := Run(s, actions, ar); |s.messages| <= |t.messages| && t.messages[..|s.messages|] == s.messages
    decreases |actions|
  {
    if actions != [] {
      var n := Step(s, actions[0], ar);
      assert |s.messages| <= |n.messages| && n.messages[..|s.messages|] == s.messages;
      HistoryOnlyGrows(n, actions[1..], ar);
      var t := Run(s, actions, ar);
      assert t.messages[..|n.messages|] == n.messages;
      assert t.messages[..|s.messages|] == n.messages[..|s.messages|];
    }
  }

  /** `LearningViewModel`, given the stored profile, the template texts and the arithmetic. */
  class LearningViewModel<R> {
    var uiState: LearningUiState
    const ar: Arith<R>

    constructor (preferenceManager: PreferenceManager, lit: Literals, ar: Arith<R>)
      ensures this.ar == ar && uiState == SessionStart(preferenceManager.GetUserData(), lit)
    {
      this.ar := ar;
      uiState := Initial;
      new;
      InitializeSession(preferenceManager.GetUserData(), lit);
    }

    method InitializeSession(userProfile: UserProfile, lit: Literals)
      requires uiState == Initial
      modifies this
      ensures uiState == SessionStart(userProfile, lit)
    {
      uiState := uiState.(userHobby := userProfile.hobby);
      var welcomeMessage := WelcomeMessage(userProfile.hobby, lit);
      AddMessage(welcomeMessage, false);
    }

    method OnPhaseSelected(phase: LearningPhase)
      modifies this
      ensures uiState == Step(old(uiState), SelectPhase(phase), ar)
    {
      uiState := uiState.(currentPhase := phase);
    }

    /** Returns the query and phase the asynchronous request is made with, if any. */
    method SendMessage(text: string) returns (request: Option<(string, LearningPhase)>)
      modifies this
      ensures uiState == Step(old(uiState), Send(text), ar)
      ensures request == if IsBlank(text) then None else Some((text, old(uiState).currentPhase))
    {
      if IsBlank(text) {
        return None;
      }
      var currentState := uiState;
      AddMessage(text, true);
      uiState := uiState.(isLoading := true, error := None);
      request := Some((text, currentState.currentPhase));
    }

    method AddMessage(text: string, isUser: bool)
      modifies this
      ensures uiState == old(uiState).(messages := old(uiState).messages + [ChatMessageUi(text, isUser)])
    {
      var newMessage := ChatMessageUi(text, isUser);
      var currentList := uiState.messages;
      currentList := currentList + [newMessage];
      uiState := uiState.(messages := currentList);
    }

    method ToggleCalculator()
      modifies this
      ensures uiState == Step(old(uiState), Action.ToggleCalculator, ar)
    {
      uiState := uiState.(isCalculatorVisible := !uiState.isCalculatorVisible);
    }

    method OnCalculatorInput(input: string)
      modifies this
      ensures uiState == Step(old(uiState), CalculatorKey(input), ar)
    {
      var expr := uiState.calcExpression;
      if input == "C" {
        expr := "";
        uiState := uiState.(calcResult := "");
      } else if input == "DEL" {
        if expr != "" {
          expr := DropLast(expr);
        }
      } else if input == "=" {
        var result := SimpleCalculator.Evaluate(expr, ar);
        uiState := uiState.(calcResult := result);
        return;
      } else if IsTrigKey(input) {
        expr := expr + input + "(";
      } else {
        expr := expr + input;
      }
      uiState := uiState.(calcExpression := expr);
    }
  }
}
