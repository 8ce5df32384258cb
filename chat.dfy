/**
 * `ChatInterface` of the web front end: the guard of `handleSend`, its
 * synchronous start, and build mode, where up to five rounds of generated
 * files are merged into the project by file name. The model's replies are a
 * function of the prompt and the current files; message ids, timestamps,
 * local storage and the other two modes (chat, search) are not modelled.
 */
module ChatInterface {
  import opened Text
  import opened Wrappers

  datatype VirtualFile = VirtualFile(name: string, language: string, content: string)

  // ---------------------------------------------------------------------------
  // Merging generated files by name

  /** `files.findIndex(f => f.name === name)`: the first file with that name, or -1. */
  function FindIndex(files: seq<VirtualFile>, name: string): (r: int)
    ensures -1 <= r < |files|
    ensures r >= 0 ==> files[r].name == name && forall j :: 0 <= j < r ==> files[j].name != name
    ensures r == -1 ==> forall j :: 0 <= j < |files| ==> files[j].name != name
  {
    if files == [] then -1
    else if files[0].name == name then 0
    else
      var k := FindIndex(files[1..], name);
      if k < 0 then -1 else k + 1
  }

  /** One generated file: it replaces the first file of the same name in place, or is pushed at the end. */
  function Upsert(files: seq<VirtualFile>, gf: VirtualFile): seq<VirtualFile> {
    var idx := FindIndex(files, gf.name);
    if idx >= 0 then files[idx := gf] else files + [gf]
  }

  /** The `forEach` over the generated files, in order. */
  function Merge(files: seq<VirtualFile>, generated: seq<VirtualFile>): seq<VirtualFile>
    decreases |generated|
  {
    if generated == [] then files else Merge(Upsert(files, generated[0]), generated[1..])
  }

  /** The file a lookup by name finds: the first of that name. */
  function Lookup(files: seq<VirtualFile>, name: string): Option<VirtualFile> {
    var i := FindIndex(files, name);
    if i >= 0 then Some(files[i]) else None
  }

  /** The last generated file with the given name, if any. */
  function LastNamed(generated: seq<VirtualFile>, name: string): Option<VirtualFile>
    decreases |generated|
  {
    if generated == [] then None
    else
      match LastNamed(generated[1..], name)
      case Some(f) => Some(f)
      case None => if generated[0].name == name then Some(generated[0]) else None
  }

  /** After an upsert, the upserted name finds the new file and every other name finds what it found before. */
  lemma UpsertLookup(files: seq<VirtualFile>, gf: VirtualFile, name: string)
    ensures Lookup(Upsert(files, gf), name) == if name == gf.name then Some(gf) else Lookup(files, name)
  {
    var idx := FindIndex(files, gf.name);
    var u := Upsert(files, gf);
    var i := FindIndex(files, name);
    var k := FindIndex(u, name);
    if idx >= 0 {
      assert forall j :: 0 <= j < |u| ==> u[j].name == files[j].name;
      if i >= 0 {
        assert k == i;
      } else {
        assert k == -1;
      }
    } else {
      assert forall j :: 0 <= j < |files| ==> u[j] == files[j];
      assert u[|files|] == gf;
      if name == gf.name {
        assert k == |files|;
      } else if i >= 0 {
        assert k == i;
      } else {
        assert k == -1;
      }
    }
  }

  /** An upsert keeps every position's name, changes only the file it replaces, and grows by at most one. */
  lemma UpsertPositions(files: seq<VirtualFile>, gf: VirtualFile)
    ensures var u := Upsert(files, gf);
      |files| <= |u| <= |files| + 1
      && (forall i :: 0 <= i < |files| ==> u[i].name == files[i].name)
      && (forall i :: 0 <= i < |files| && files[i].name != gf.name ==> u[i] == files[i])
      && (|u| == |files| + 1 <==> FindIndex(files, gf.name) == -1)
  {
  }

  /** After the merge, a generated name finds the last file generated under it; any other name finds what it found before. */
  lemma {:induction false} MergeLookup(files: seq<VirtualFile>, generated: seq<VirtualFile>, name: string)
    ensures Lookup(Merge(files, generated), name) ==
      if LastNamed(generated, name).Some? then LastNamed(generated, name) else Lookup(files, name)
    decreases |generated|
  {
    if generated != [] {
      var u := Upsert(files, generated[0]);
      MergeLookup(u, generated[1..], name);
      UpsertLookup(files, generated[0], name);
    }
  }

  /** Existing files keep their position and name; those not generated again also keep their content. */
  lemma {:induction false} MergeKeepsPositions(files: seq<VirtualFile>, generated: seq<VirtualFile>)
    ensures var m := Merge(files, generated);
      |files| <= |m|
      && (forall i :: 0 <= i < |files| ==> m[i].name == files[i].name)
      && (forall i :: 0 <= i < |files| && LastNamed(generated, files[i].name) == None ==> m[i] == files[i])
    decreases |generated|
  {
    if generated != [] {
      var u := Upsert(files, generated[0]);
      UpsertPositions(files, generated[0]);
      MergeKeepsPositions(u, generated[1..]);
      forall i | 0 <= i < |files| && LastNamed(generated, files[i].name) == None
        ensures Merge(files, generated)[i] == files[i]
      {
        assert LastNamed(generated[1..], files[i].name) == None;
        assert generated[0].name != files[i].name;
      }
    }
  }

  /** No two files share a name. */
  predicate DistinctNames(files: seq<VirtualFile>) {
    forall i, j :: 0 <= i < j < |files| ==> files[i].name != files[j].name
  }

  /** Generated files under new names, all different, are appended at the end in the order generated. */
  lemma {:induction false} MergeAppendsNew(files: seq<VirtualFile>, generated: seq<VirtualFile>)
    requires DistinctNames(files + generated)
    ensures Merge(files, generated) == files + generated
    decreases |generated|
  {
    if generated != [] {
      var g := generated[0];
      assert forall j :: 0 <= j < |files| ==> files[j].name != g.name by {
        forall j | 0 <= j < |files| ensures files[j].name != g.name {
          assert (files + generated)[j] == files[j] && (files + generated)[|files|] == g;
        }
      }
      assert Upsert(files, g) == files + [g];
      assert files + generated == (files + [g]) + generated[1..];
      MergeAppendsNew(files + [g], generated[1..]);
    }
  }

  /** The body of one build round: the generated files merged into a copy of the local files. */
  method MergeGenerated(localFiles: seq<VirtualFile>, generated: seq<VirtualFile>) returns (newLocalFiles: seq<VirtualFile>)
    ensures newLocalFiles == Merge(localFiles, generated)
  {
    newLocalFiles := localFiles;
    var k := 0;
    while k < |generated|
      invariant 0 <= k <= |generated|
      invariant Merge(newLocalFiles, generated[k..]) == Merge(localFiles, generated)
    {
      var gf := generated[k];
      assert generated[k..][1..] == generated[k + 1..];
      var idx := FindIndex(newLocalFiles, gf.name);
      if idx >= 0 {
        newLocalFiles := newLocalFiles[idx := gf];
      } else {
        newLocalFiles := newLocalFiles + [gf];
      }
      k := k + 1;
    }
  }

  // ---------------------------------------------------------------------------
  // Build mode

  datatype BuildStatus = Continue | Complete

  /** `AppStructureResponse`. */
  datatype AppStructure = AppStructure(files: seq<VirtualFile>, status: BuildStatus, reasoning: string)

  /**
   * What `generateAppStructure(prompt, files)` answers in a given round. The
   * round number stands for everything outside the call that may change
   * between rounds (the remote model's sampling and state), so two rounds
   * with the same prompt and files may answer differently.
   */
  type Generator = (nat, string, seq<VirtualFile>) -> AppStructure

  const MaxRounds := 5
  const ContinuePrompt := "Continue building."

  /** The progress message of one round. */
  function StepMessage(iteration: nat, reasoning: string): string {
    "**Step " + NatToString(iteration) + ":** " + reasoning
  }

  /**
   * The rounds from `iteration` on: the prompt of each, the files handed to
   * `onFilesGenerated`, the progress messages, the final local files, and
   * whether a round answered COMPLETE.
   */
  datatype BuildOutcome = BuildOutcome(
    prompts: seq<string>, emitted: seq<seq<VirtualFile>>, steps: seq<string>,
    files: seq<VirtualFile>, complete: bool)

  function Build(prompt: string, files: seq<VirtualFile>, generate: Generator, iteration: nat): BuildOutcome
    decreases MaxRounds + 1 - iteration
  {
    if iteration > MaxRounds then BuildOutcome([], [], [], files, false)
    else
      var result := generate(iteration, prompt, files);
      var merged := Merge(files, result.files);
      var step := StepMessage(iteration, result.reasoning);
      if result.status == Complete then BuildOutcome([prompt], [result.files], [step], merged, true)
      else
        var rest := Build(ContinuePrompt, merged, generate, iteration + 1);
        BuildOutcome([prompt] + rest.prompts, [result.files] + rest.emitted, [step] + rest.steps, rest.files, rest.complete)
  }

  /**
   * At most five rounds, at least one; the first prompt is the user's text
   * and every later one "Continue building."; the loop ends before the fifth
   * round only on COMPLETE.
   */
  lemma {:induction false} BuildRounds(prompt: string, files: seq<VirtualFile>, generate: Generator, iteration: nat)
    requires 1 <= iteration <= MaxRounds
    ensures var out := Build(prompt, files, generate, iteration);
      1 <= |out.prompts| <= MaxRounds + 1 - iteration
      && |out.emitted| == |out.prompts| && |out.steps| == |out.prompts|
      && out.prompts[0] == prompt
      && (forall k :: 1 <= k < |out.prompts| ==> out.prompts[k] == ContinuePrompt)
      && (|out.prompts| < MaxRounds + 1 - iteration ==> out.complete)
    decreases MaxRounds + 1 - iteration
  {
    var result := generate(iteration, prompt, files);
    if result.status != Complete && iteration < MaxRounds {
      BuildRounds(ContinuePrompt, Merge(files, result.files), generate, iteration + 1);
    }
  }

  /**
   * Answers may change from round to round with the same prompt and files:
   * a second round that answers CONTINUE with no files, then a third that
   * answers COMPLETE, ends the loop after three rounds.
   */
  lemma CompleteAfterEmptyRound(prompt: string, files: seq<VirtualFile>)
    ensures var generate: Generator := (n: nat, p: string, f: seq<VirtualFile>) =>
              AppStructure([], if n == 3 then Complete else Continue, "");
      var out := Build(prompt, files, generate, 1);
      out.prompts == [prompt, ContinuePrompt, ContinuePrompt] && out.complete && out.files == files
  {
    var generate: Generator := (n: nat, p: string, f: seq<VirtualFile>) =>
      AppStructure([], if n == 3 then Complete else Continue, "");
    assert Build(ContinuePrompt, files, generate, 3).prompts == [ContinuePrompt];
    assert Build(ContinuePrompt, files, generate, 2).prompts == [ContinuePrompt, ContinuePrompt];
  }

  /** One round, then the rest of the rounds. */
  function Then(prompt: string, emitted: seq<VirtualFile>, step: string, rest: BuildOutcome): BuildOutcome {
    BuildOutcome([prompt] + rest.prompts, [emitted] + rest.emitted, [step] + rest.steps, rest.files, rest.complete)
  }

  /** The rounds already run, then the rest of the rounds. */
  function After(prompts: seq<string>, emitted: seq<seq<VirtualFile>>, steps: seq<string>, rest: BuildOutcome): BuildOutcome {
    BuildOutcome(prompts + rest.prompts, emitted + rest.emitted, steps + rest.steps, rest.files, rest.complete)
  }

  lemma AfterThen(prompts: seq<string>, emitted: seq<seq<VirtualFile>>, steps: seq<string>,
                  prompt: string, files: seq<VirtualFile>, step: string, rest: BuildOutcome)
    ensures After(prompts, emitted, steps, Then(prompt, files, step, rest))
         == After(prompts + [prompt], emitted + [files], steps + [step], rest)
  {
    assert prompts + ([prompt] + rest.prompts) == (prompts + [prompt]) + rest.prompts;
    assert emitted + ([files] + rest.emitted) == (emitted + [files]) + rest.emitted;
    assert steps + ([step] + rest.steps) == (steps + [step]) + rest.steps;
  }

  /** One round of `Build`: the round's prompt, files and message, then what follows it. */
  lemma BuildStep(prompt: string, files: seq<VirtualFile>, generate: Generator, iteration: nat)
    requires iteration <= MaxRounds
    ensures var result := generate(iteration, prompt, files);
      var merged := Merge(files, result.files);
      Build(prompt, files, generate, iteration)
      == Then(prompt, result.files, StepMessage(iteration, result.reasoning),
              if result.status == Complete then BuildOutcome([], [], [], merged, true)
              else Build(ContinuePrompt, merged, generate, iteration + 1))
  {
  }

  /** Nothing after the rounds already run. */
  lemma AfterNothing(prompts: seq<string>, emitted: seq<seq<VirtualFile>>, steps: seq<string>,
                     files: seq<VirtualFile>, complete: bool)
    ensures After(prompts, emitted, steps, BuildOutcome([], [], [], files, complete))
         == BuildOutcome(prompts, emitted, steps, files, complete)
  {
    assert prompts + [] == prompts && emitted + [] == emitted && steps + [] == steps;
  }

  /** The `while (keepGoing && iteration <= 5)` loop of build mode. */
  method BuildMode(userText: string, files: seq<VirtualFile>, generate: Generator) returns (out: BuildOutcome)
    ensures out == Build(userText, files, generate, 1)
  {
    var keepGoing := true;
    var iteration := 1;
    var currentPrompt := userText;
    var localFiles := files;
    var prompts, emitted, steps := [], [], [];
    var complete := false;
    ghost var total := Build(userText, files, generate, 1);
    assert total == After([], [], [], total);
    while keepGoing && iteration <= MaxRounds
      invariant 1 <= iteration <= MaxRounds + 1
      invariant keepGoing ==> total == After(prompts, emitted, steps, Build(currentPrompt, localFiles, generate, iteration))
      invariant !keepGoing ==> total == BuildOutcome(prompts, emitted, steps, localFiles, complete)
      invariant keepGoing ==> !complete
      decreases MaxRounds + 1 - iteration, keepGoing
    {
      var prompt := currentPrompt;
      var result := generate(iteration, prompt, localFiles);
      var newLocalFiles := MergeGenerated(localFiles, result.files);
      var step := StepMessage(iteration, result.reasoning);
      BuildStep(prompt, localFiles, generate, iteration);
      ghost var rest := if result.status == Complete then BuildOutcome([], [], [], newLocalFiles, true)
                        else Build(ContinuePrompt, newLocalFiles, generate, iteration + 1);
      AfterThen(prompts, emitted, steps, prompt, result.files, step, rest);
      if result.status == Complete {
        AfterNothing(prompts + [prompt], emitted + [result.files], steps + [step], newLocalFiles, true);
        keepGoing := false;
        complete := true;
      } else {
        iteration := iteration + 1;
        currentPrompt := ContinuePrompt;
      }
      prompts, emitted, steps := prompts + [prompt], emitted + [result.files], steps + [step];
      localFiles := newLocalFiles;
    }
    if keepGoing {
      AfterNothing(prompts, emitted, steps, localFiles, false);
    }
    out := BuildOutcome(prompts, emitted, steps, localFiles, complete);
  }

  // ---------------------------------------------------------------------------
  // Sending

  datatype Role = User | Model

  datatype ChatAttachment = ChatAttachment(name: string, mimeType: string, data: string)

  /** `ChatMessage` without its id and timestamp. */
  datatype ChatMessage = ChatMessage(role: Role, text: string, attachments: seq<ChatAttachment>)

  /** `handleSend` returns at once: nothing to send, or a request already running. */
  predicate SendBlocked(input: string, attachments: seq<ChatAttachment>, isLoading: bool) {
    (TrimsToEmpty(input) && |attachments| == 0) || isLoading
  }

  /**
   * While loading nothing is sent; white space alone with no attachment is
   * never sent; otherwise text holding any character that is not white
   * space, or any attachment, is.
   */
  lemma SendGuard(input: string, attachments: seq<ChatAttachment>, isLoading: bool)
    ensures isLoading ==> SendBlocked(input, attachments, isLoading)
    ensures TrimsToEmpty(input) && |attachments| == 0 ==> SendBlocked(input, attachments, isLoading)
    ensures !isLoading && |attachments| > 0 ==> !SendBlocked(input, attachments, isLoading)
    ensures !isLoading && (exists k :: 0 <= k < |input| && !IsJsWhitespace(input[k]))
            ==> !SendBlocked(input, attachments, isLoading)
  {
  }

  /** A concrete case of the guard: tab, space and newline alone are blocked, and " a" is sent. */
  lemma SendGuardExamples()
    ensures SendBlocked(" \t\n", [], false)
    ensures !SendBlocked(" a", [], false)
  {
    var blank := " \t\n";
    assert IsJsWhitespace(blank[0]) && IsJsWhitespace(blank[1]) && IsJsWhitespace(blank[2]);
    var padded := " a";
    assert !IsJsWhitespace(padded[1]);
  }

  /** The chat's state as `handleSend` sees and changes it before its first `await`. */
  class Chat {
    var messages: seq<ChatMessage>
    var input: string
    var attachments: seq<ChatAttachment>
    var isLoading: bool

    constructor (messages: seq<ChatMessage>)
      ensures this.messages == messages && input == "" && attachments == [] && !isLoading
    {
      this.messages := messages;
      input := "";
      attachments := [];
      isLoading := false;
    }

    /** Returns the text and attachments that go out, or nothing when the guard stops the send. */
    method HandleSendStart() returns (sent: Option<(string, seq<ChatAttachment>)>)
      modifies this
      ensures SendBlocked(old(input), old(attachments), old(isLoading)) ==>
        sent == None && messages == old(messages) && input == old(input)
        && attachments == old(attachments) && isLoading == old(isLoading)
      ensures !SendBlocked(old(input), old(attachments), old(isLoading)) ==>
        sent == Some((old(input), old(attachments)))
        && messages == old(messages) + [ChatMessage(User, old(input), old(attachments))]
        && input == "" && attachments == [] && isLoading
    {
      if SendBlocked(input, attachments, isLoading) {
        return None;
      }
      var userText := input;
      var currentAttachments := attachments;
      messages := messages + [ChatMessage(User, userText, currentAttachments)];
      input := "";
      attachments := [];
      isLoading := true;
      sent := Some((userText, currentAttachments));
    }
  }
}
