/**
 * The fixed multi-line texts the app fills in (`"""...""".trimIndent()`
 * blocks). Their wording is not modelled: each template is an opaque list of
 * literal pieces supplied by a `Literals` value, and a `Block` names the
 * template together with the values interpolated into it, in order.
 */
module Templates {

  /** `MathRepository.LearningPhase`. */
  datatype LearningPhase = Summary | Explanation | Examples | Tasks

  /** The two versions of the prompt builder, in `PromptFactory.kt` and `PromptUtils.kt`. */
  datatype Variant = Factory | Utils

  datatype Template =
    | Persona(variant: Variant)
    | Style(variant: Variant)
    | PhaseText(variant: Variant, phase: LearningPhase)
    | StudentQuestion
    | Welcome

  /** The literal text of each template, cut at its interpolation points. */
  type Literals = Template -> seq<string>

  /** A template and the values interpolated into it. */
  datatype Block = Block(template: Template, args: seq<string>)

  /** The `i`-th literal piece; a missing piece is empty. */
  function Piece(pieces: seq<string>, i: nat): string {
    if i < |pieces| then pieces[i] else ""
  }

  /** Literal, value, literal, value, ..., literal. */
  function Fill(pieces: seq<string>, args: seq<string>): string
    decreases |args|
  {
    if args == [] then Piece(pieces, 0)
    else Piece(pieces, 0) + args[0] + Fill(if pieces == [] then [] else pieces[1..], args[1..])
  }

  function Render(b: Block, lit: Literals): string {
    Fill(lit(b.template), b.args)
  }

  /** `t` occurs in `s` from position `i` on. */
  predicate OccursAt(t: string, s: string, i: int) {
    0 <= i <= |s| - |t| && s[i..i + |t|] == t
  }

  /** `t` occurs in `s` as a contiguous substring. */
  ghost predicate Occurs(t: string, s: string) {
    exists i :: OccursAt(t, s, i)
  }

  /** A substring stays a substring when text is added before or after. */
  lemma OccursWithin(t: string, s: string, before: string, after: string)
    requires Occurs(t, s)
    ensures Occurs(t, before + s + after)
  {
    var i :| OccursAt(t, s, i);
    var u := before + s + after;
    var j := |before| + i;
    assert u[j..j + |t|] == s[i..i + |t|];
    assert OccursAt(t, u, j);
  }

  lemma OccursItself(t: string)
    ensures Occurs(t, t)
  {
    assert t[0..|t|] == t;
    assert OccursAt(t, t, 0);
  }

  /** Every interpolated value shows up in the filled text, whatever the literal pieces. */
  lemma {:induction false} FillShowsArguments(pieces: seq<string>, args: seq<string>, k: nat)
    requires k < |args|
    ensures Occurs(args[k], Fill(pieces, args))
    decreases |args|
  {
    var rest := if pieces == [] then [] else pieces[1..];
    var tail := Fill(rest, args[1..]);
    assert Fill(pieces, args) == Piece(pieces, 0) + args[0] + tail;
    if k == 0 {
      OccursItself(args[0]);
      OccursWithin(args[0], args[0], Piece(pieces, 0), tail);
    } else {
      FillShowsArguments(rest, args[1..], k - 1);
      OccursWithin(args[k], tail, Piece(pieces, 0) + args[0], "");
      assert Piece(pieces, 0) + args[0] + tail + "" == Fill(pieces, args);
    }
  }

  /** Every interpolated value of a block shows up in its rendering. */
  lemma RenderShowsArguments(b: Block, lit: Literals, k: nat)
    requires k < |b.args|
    ensures Occurs(b.args[k], Render(b, lit))
  {
    FillShowsArguments(lit(b.template), b.args, k);
  }

  /** A substring of a substring is a substring. */
  lemma OccursPassesOn(t: string, m: string, s: string)
    requires Occurs(t, m) && Occurs(m, s)
    ensures Occurs(t, s)
  {
    var i :| OccursAt(t, m, i);
    var j :| OccursAt(m, s, j);
    assert forall k :: 0 <= k < |m| ==> s[j + k] == m[k] by {
      forall k | 0 <= k < |m| ensures s[j + k] == m[k] {
        assert s[j..j + |m|][k] == m[k];
      }
    }
    assert s[j + i..j + i + |t|] == m[i..i + |t|];
    assert OccursAt(t, s, j + i);
  }

  /** Three sections separated by blank lines, as `buildSystemPrompt` appends them. */
  function JoinSections(a: string, b: string, c: string): string {
    a + "\n\n" + b + "\n\n" + c
  }

  /** Whatever occurs in one section occurs in the joined text. */
  lemma SectionsShow(t: string, a: string, b: string, c: string)
    requires Occurs(t, a) || Occurs(t, b) || Occurs(t, c)
    ensures Occurs(t, JoinSections(a, b, c))
  {
    var joined := JoinSections(a, b, c);
    if Occurs(t, a) {
      assert joined == "" + a + ("\n\n" + b + "\n\n" + c);
      OccursWithin(t, a, "", "\n\n" + b + "\n\n" + c);
    } else if Occurs(t, b) {
      assert joined == a + "\n\n" + b + ("\n\n" + c);
      OccursWithin(t, b, a + "\n\n", "\n\n" + c);
    } else {
      assert joined == a + "\n\n" + b + "\n\n" + c + "";
      OccursWithin(t, c, a + "\n\n" + b + "\n\n", "");
    }
  }
}
