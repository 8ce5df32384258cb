/**
 * `PromptFactory.buildSystemPrompt` in `PromptFactory.kt` and the prompt
 * `MathRepository.getAssistantResponse` assembles around it: persona, style
 * guidelines and phase instructions, each a template filled from the
 * student's profile, joined by blank lines.
 */
module PromptFactory {
  import opened Text
  import opened Templates
  import opened Preferences

  /** The topic used when the caller supplies none. */
  const DefaultTopic := "Mathematics"

  /** Kotlin's `ifBlank`: the fallback for a blank string, the string itself otherwise. */
  function IfBlank(s: string, fallback: string): (r: string)
    ensures !IsBlank(fallback) ==> !IsBlank(r)
    ensures !IsBlank(s) ==> r == s
  {
    if IsBlank(s) then fallback else s
  }

  /** The constraint line's content: empty exactly when there is nothing to avoid, and then naming it. */
  function AvoidanceInstruction(dislikes: string): (r: string)
    ensures r == "" <==> IsBlank(dislikes)
    ensures !IsBlank(dislikes) ==> Occurs(dislikes, r)
  {
    if !IsBlank(dislikes) then
      var r := "Avoid using examples related to: " + dislikes + ".";
      OccursItself(dislikes);
      OccursWithin(dislikes, dislikes, "Avoid using examples related to: ", ".");
      r
    else ""
  }

  /** `getBasePersona`: grade, country, hobby, then likes and dislikes with their defaults. */
  function BasePersona(u: UserProfile): Block {
    Block(Persona(Factory), [u.grade, u.country, u.hobby, IfBlank(u.likes, "General Math"), IfBlank(u.dislikes, "None")])
  }

  /** `getStyleGuidelines`: grade, hobby, the avoidance instruction and the country. */
  function StyleGuidelines(u: UserProfile): Block {
    Block(Style(Factory), [u.grade, u.hobby, AvoidanceInstruction(u.dislikes), u.country])
  }

  /** `getPhaseInstructions`: one block per phase, all with the hobby lower-cased. */
  function PhaseInstructions(phase: LearningPhase, hobby: string, topic: string): Block {
    var hobbyLower := Lower(hobby);
    match phase
    case Summary => Block(PhaseText(Factory, Summary), [topic, topic, hobbyLower])
    case Explanation => Block(PhaseText(Factory, Explanation), [topic, hobbyLower])
    case Examples => Block(PhaseText(Factory, Examples), [topic, hobbyLower])
    case Tasks => Block(PhaseText(Factory, Tasks), [topic, hobbyLower])
  }

  /** `buildSystemPrompt(userProfile, phase, currentTopic)`. */
  function BuildSystemPrompt(u: UserProfile, phase: LearningPhase, topic: string, lit: Literals): string {
    JoinSections(Render(BasePersona(u), lit), Render(StyleGuidelines(u), lit),
                 Render(PhaseInstructions(phase, u.hobby, topic), lit))
  }

  /** `buildSystemPrompt(userProfile, phase)`, with the default topic. */
  function BuildDefaultSystemPrompt(u: UserProfile, phase: LearningPhase, lit: Literals): string {
    BuildSystemPrompt(u, phase, DefaultTopic, lit)
  }

  /** `getAssistantResponse`'s final prompt: the system instruction built with the query as topic, then the quoted query. */
  function AssistantPrompt(u: UserProfile, phase: LearningPhase, query: string, lit: Literals): string {
    Render(Block(StudentQuestion, [BuildSystemPrompt(u, phase, query, lit), query]), lit)
  }

  /** Likes and dislikes never render blank: a blank value is replaced, a non-blank one kept. */
  lemma PersonaDefaults(u: UserProfile)
    ensures var args := BasePersona(u).args;
      !IsBlank(args[3]) && !IsBlank(args[4])
      && (!IsBlank(u.likes) ==> args[3] == u.likes) && (!IsBlank(u.dislikes) ==> args[4] == u.dislikes)
  {
    assert !IsWhitespace("General Math"[0]) && !IsWhitespace("None"[0]);
  }

  /** Exactly the selected phase's template is used, and the topic comes first in it. */
  lemma PhaseSelectsItsTemplate(phase: LearningPhase, hobby: string, topic: string)
    ensures PhaseInstructions(phase, hobby, topic).template == PhaseText(Factory, phase)
    ensures PhaseInstructions(phase, hobby, topic).args[0] == topic
  {
  }

  /** The phase block sees the hobby only lower-cased: changing its case changes nothing. */
  lemma PhaseIgnoresHobbyCase(phase: LearningPhase, hobby: string, topic: string)
    ensures PhaseInstructions(phase, Lower(hobby), topic) == PhaseInstructions(phase, hobby, topic)
  {
    LowerIdempotent(hobby);
  }

  /** Persona and style use the hobby as typed: two hobbies that differ only in case give different blocks. */
  lemma PersonaKeepsHobbyCase(u: UserProfile, hobby: string)
    requires hobby != u.hobby
    ensures BasePersona(u.(hobby := hobby)) != BasePersona(u)
    ensures StyleGuidelines(u.(hobby := hobby)) != StyleGuidelines(u)
  {
    assert BasePersona(u.(hobby := hobby)).args[2] == hobby;
    assert StyleGuidelines(u.(hobby := hobby)).args[1] == hobby;
  }

  /** The whole system prompt names the grade, the country, the hobby as typed and lower-cased, the topic, and what to avoid. */
  lemma SystemPromptMentions(u: UserProfile, phase: LearningPhase, topic: string, lit: Literals)
    ensures var prompt := BuildSystemPrompt(u, phase, topic, lit);
      Occurs(u.grade, prompt) && Occurs(u.country, prompt) && Occurs(u.hobby, prompt)
      && Occurs(Lower(u.hobby), prompt) && Occurs(topic, prompt)
      && (!IsBlank(u.dislikes) ==> Occurs(u.dislikes, prompt))
  {
    var persona := Render(BasePersona(u), lit);
    var style := Render(StyleGuidelines(u), lit);
    var phaseBlock := PhaseInstructions(phase, u.hobby, topic);
    var phaseText := Render(phaseBlock, lit);
    var last := |phaseBlock.args| - 1;
    assert phaseBlock.args[last] == Lower(u.hobby);
    RenderShowsArguments(BasePersona(u), lit, 0);
    SectionsShow(u.grade, persona, style, phaseText);
    RenderShowsArguments(BasePersona(u), lit, 1);
    SectionsShow(u.country, persona, style, phaseText);
    RenderShowsArguments(BasePersona(u), lit, 2);
    SectionsShow(u.hobby, persona, style, phaseText);
    RenderShowsArguments(phaseBlock, lit, 0);
    SectionsShow(topic, persona, style, phaseText);
    RenderShowsArguments(phaseBlock, lit, last);
    SectionsShow(Lower(u.hobby), persona, style, phaseText);
    if !IsBlank(u.dislikes) {
      RenderShowsArguments(StyleGuidelines(u), lit, 2);
      OccursPassesOn(u.dislikes, AvoidanceInstruction(u.dislikes), style);
      SectionsShow(u.dislikes, persona, style, phaseText);
    }
  }

  /** Without a topic, the prompt is about "Mathematics". */
  lemma DefaultTopicMentioned(u: UserProfile, phase: LearningPhase, lit: Literals)
    ensures Occurs(DefaultTopic, BuildDefaultSystemPrompt(u, phase, lit))
  {
    SystemPromptMentions(u, phase, DefaultTopic, lit);
  }

  /** The final prompt carries the system instruction, and the query both as the topic and as the question. */
  lemma AssistantPromptMentions(u: UserProfile, phase: LearningPhase, query: string, lit: Literals)
    ensures var prompt := AssistantPrompt(u, phase, query, lit);
      Occurs(BuildSystemPrompt(u, phase, query, lit), prompt) && Occurs(query, prompt)
      && Occurs(query, BuildSystemPrompt(u, phase, query, lit))
  {
    var b := Block(StudentQuestion, [BuildSystemPrompt(u, phase, query, lit), query]);
    RenderShowsArguments(b, lit, 0);
    RenderShowsArguments(b, lit, 1);
    SystemPromptMentions(u, phase, query, lit);
  }
}
