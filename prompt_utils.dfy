/**
 * The version of `PromptFactory.buildSystemPrompt` in `PromptUtils.kt`: the
 * same three sections, but likes and dislikes are shown as typed, and only
 * the practice-tasks block lower-cases the hobby.
 */
module PromptUtils {
  import opened Text
  import opened Templates
  import opened Preferences
  import PromptFactory

  /** `getBasePersona`: every profile field verbatim. */
  function BasePersona(u: UserProfile): Block {
    Block(Persona(Utils), [u.grade, u.country, u.hobby, u.likes, u.dislikes])
  }

  /** `getStyleGuidelines`: the same values and avoidance instruction as in `PromptFactory.kt`. */
  function StyleGuidelines(u: UserProfile): Block {
    Block(Style(Utils), [u.grade, u.hobby, PromptFactory.AvoidanceInstruction(u.dislikes), u.country])
  }

  /** `getPhaseInstructions`: the hobby verbatim except in the `TASKS` block. */
  function PhaseInstructions(phase: LearningPhase, hobby: string, topic: string): Block {
    match phase
    case Summary => Block(PhaseText(Utils, Summary), [topic, topic, hobby])
    case Explanation => Block(PhaseText(Utils, Explanation), [topic, hobby])
    case Examples => Block(PhaseText(Utils, Examples), [topic, hobby])
    case Tasks => Block(PhaseText(Utils, Tasks), [topic, Lower(hobby)])
  }

  function BuildSystemPrompt(u: UserProfile, phase: LearningPhase, topic: string, lit: Literals): string {
    JoinSections(Render(BasePersona(u), lit), Render(StyleGuidelines(u), lit),
                 Render(PhaseInstructions(phase, u.hobby, topic), lit))
  }

  function BuildDefaultSystemPrompt(u: UserProfile, phase: LearningPhase, lit: Literals): string {
    BuildSystemPrompt(u, phase, PromptFactory.DefaultTopic, lit)
  }

  /** The two personas show the same values exactly when neither likes nor dislikes is blank. */
  lemma PersonaValuesAgree(u: UserProfile)
    ensures BasePersona(u).args == PromptFactory.BasePersona(u).args <==> !IsBlank(u.likes) && !IsBlank(u.dislikes)
  {
    PromptFactory.PersonaDefaults(u);
    if BasePersona(u).args == PromptFactory.BasePersona(u).args {
      assert u.likes == PromptFactory.BasePersona(u).args[3];
      assert u.dislikes == PromptFactory.BasePersona(u).args[4];
    }
  }

  /** Both versions put the same values in the style section. */
  lemma StyleValuesAgree(u: UserProfile)
    ensures StyleGuidelines(u).args == PromptFactory.StyleGuidelines(u).args
  {
  }

  /** Only the `TASKS` block ignores the hobby's case. */
  lemma OnlyTasksIgnoresHobbyCase(hobby: string, topic: string)
    ensures PhaseInstructions(Tasks, Lower(hobby), topic) == PhaseInstructions(Tasks, hobby, topic)
    ensures PhaseInstructions(Summary, "Chess", topic) != PhaseInstructions(Summary, "chess", topic)
  {
    LowerIdempotent(hobby);
    assert "Chess"[0] != "chess"[0];
  }

  /** For a hobby typed in lower case the two versions fill the phase blocks with the same values. */
  lemma PhaseValuesAgreeOnLowerCase(phase: LearningPhase, hobby: string, topic: string)
    requires Lower(hobby) == hobby
    ensures PhaseInstructions(phase, hobby, topic).args == PromptFactory.PhaseInstructions(phase, hobby, topic).args
  {
  }

  /** The prompt names every profile field as typed, the topic, and the default topic when none is given. */
  lemma SystemPromptMentions(u: UserProfile, phase: LearningPhase, topic: string, lit: Literals)
    ensures var prompt := BuildSystemPrompt(u, phase, topic, lit);
      Occurs(u.grade, prompt) && Occurs(u.country, prompt) && Occurs(u.hobby, prompt)
      && Occurs(u.likes, prompt) && Occurs(u.dislikes, prompt) && Occurs(topic, prompt)
    ensures Occurs(PromptFactory.DefaultTopic, BuildDefaultSystemPrompt(u, phase, lit))
  {
    var persona := Render(BasePersona(u), lit);
    var style := Render(StyleGuidelines(u), lit);
    var phaseText := Render(PhaseInstructions(phase, u.hobby, topic), lit);
    RenderShowsArguments(BasePersona(u), lit, 0);
    SectionsShow(u.grade, persona, style, phaseText);
    RenderShowsArguments(BasePersona(u), lit, 1);
    SectionsShow(u.country, persona, style, phaseText);
    RenderShowsArguments(BasePersona(u), lit, 2);
    SectionsShow(u.hobby, persona, style, phaseText);
    RenderShowsArguments(BasePersona(u), lit, 3);
    SectionsShow(u.likes, persona, style, phaseText);
    RenderShowsArguments(BasePersona(u), lit, 4);
    SectionsShow(u.dislikes, persona, style, phaseText);
    RenderShowsArguments(PhaseInstructions(phase, u.hobby, topic), lit, 0);
    SectionsShow(topic, persona, style, phaseText);
    var defaultPhase := Render(PhaseInstructions(phase, u.hobby, PromptFactory.DefaultTopic), lit);
    RenderShowsArguments(PhaseInstructions(phase, u.hobby, PromptFactory.DefaultTopic), lit, 0);
    SectionsShow(PromptFactory.DefaultTopic, persona, style, defaultPhase);
  }
}
