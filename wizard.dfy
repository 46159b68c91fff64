/**
 * The four-step wizard that hosts the selector and the editor: the step
 * state and its transitions, and the markdown document built from the
 * edited recipe.
 */
module Wizard {
  import opened Options
  import opened Text
  import Recognition

  /** The wizard's steps, in the order the progress bar shows them. */
  datatype Step = Upload | Select | Edit | Preview

  /** Position of a step in the progress bar. */
  function StepIndex(s: Step): nat {
    match s
    case Upload => 0
    case Select => 1
    case Edit => 2
    case Preview => 3
  }

  /** `handleBack`: one step to the left in the progress bar, staying on the
      first step. */
  function Back(s: Step): (r: Step)
    ensures StepIndex(r) == if StepIndex(s) == 0 then 0 else StepIndex(s) - 1
  {
    match s
    case Preview => Edit
    case Edit => Select
    case Select => Upload
    case Upload => Upload
  }

  /** Three backs reach the upload step from anywhere, and it is a fixed point. */
  lemma BackReachesUpload(s: Step)
    ensures Back(Back(Back(s))) == Upload
    ensures Back(Upload) == Upload
  {
  }

  /** The lines of the fixed Notes block, the last one the empty line its
      final line feed opens. */
  const NotesLines: seq<string> :=
    ["## Notes", "", "- Prep Time: ", "- Cook Time: ", "- Servings: ", "- Source: OCR Extracted Recipe", ""]

  /** The fixed tail of every document: the Notes heading and four fields,
      the time and serving fields left blank. */
  const NotesBlock: string :=
    "## Notes\n" + "\n" + "- Prep Time: \n" + "- Cook Time: \n" + "- Servings: \n" + "- Source: OCR Extracted Recipe\n"

  /** One ingredient line of the document. */
  function Bullet(ingredient: string): string {
    "- " + Trim(ingredient)
  }

  /** Instruction `k` (from 0) as a numbered line, counting from 1. */
  function NumberedStep(k: nat, instruction: string): string {
    NatToString(k + 1) + ". " + Trim(instruction)
  }

  function Bullets(ingredients: seq<string>): seq<string> {
    seq(|ingredients|, k requires 0 <= k < |ingredients| => Bullet(ingredients[k]))
  }

  function NumberedSteps(instructions: seq<string>): seq<string> {
    seq(|instructions|, k requires 0 <= k < |instructions| => NumberedStep(k, instructions[k]))
  }

  /** `handleTextOrganized`'s template literal. Every document starts with
      the title heading and ends with the same Notes block, whatever the
      inputs. */
  function Markdown(title: string, ingredients: seq<string>, instructions: seq<string>): (m: string)
    ensures |m| >= |"# " + title| + |NotesBlock|
    ensures m[..|"# " + title|] == "# " + title
    ensures m[|m| - |NotesBlock|..] == NotesBlock
  {
    "# " + title + "\n\n## Ingredients\n\n"
    + Join(Bullets(ingredients), "\n")
    + "\n\n## Instructions\n\n"
    + Join(NumberedSteps(instructions), "\n")
    + "\n\n" + NotesBlock
  }

  /** The lines a joined block contributes: its own lines, or one empty line
      when the list is empty. */
  function BlockLines(lines: seq<string>): seq<string> {
    if lines == [] then [""] else lines
  }

  /** Lines of the document, as its template lays them out. */
  function DocumentLines(title: string, ingredients: seq<string>, instructions: seq<string>): seq<string> {
    ["# " + title, "", "## Ingredients", ""] + BlockLines(Bullets(ingredients))
    + ["", "## Instructions", ""] + BlockLines(NumberedSteps(instructions))
    + [""] + NotesLines
  }

  lemma JoinCons(x: string, xs: seq<string>, sep: string)
    requires xs != []
    ensures Join([x] + xs, sep) == x + sep + Join(xs, sep)
  {
    assert ([x] + xs)[1..] == xs;
  }

  lemma JoinNotes()
    ensures Join(NotesLines, "\n") == NotesBlock
  {
    var l6 := ["- Source: OCR Extracted Recipe", ""];
    var l5 := ["- Servings: "] + l6;
    var l4 := ["- Cook Time: "] + l5;
    var l3 := ["- Prep Time: "] + l4;
    var l2 := [""] + l3;
    assert l6 == ["- Source: OCR Extracted Recipe"] + [""];
    JoinCons("- Source: OCR Extracted Recipe", [""], "\n");
    JoinCons("- Servings: ", l6, "\n");
    JoinCons("- Cook Time: ", l5, "\n");
    JoinCons("- Prep Time: ", l4, "\n");
    JoinCons("", l3, "\n");
    JoinCons("## Notes", l2, "\n");
    assert NotesLines == ["## Notes"] + l2;
  }

  lemma JoinHead(title: string)
    ensures Join(["# " + title, "", "## Ingredients", ""], "\n") == "# " + title + "\n\n## Ingredients\n"
  {
    var subhead := ["", "## Ingredients", ""];
    assert Join(subhead, "\n") == "\n## Ingredients\n";
    assert ["# " + title, "", "## Ingredients", ""][1..] == subhead;
  }

  /** Joining five non-empty runs of lines puts one separator between
      consecutive runs. */
  lemma JoinFive(a: seq<string>, b: seq<string>, c: seq<string>, d: seq<string>, e: seq<string>, sep: string)
    requires a != [] && b != [] && c != [] && d != [] && e != []
    ensures Join(a + b + c + d + e, sep)
      == Join(a, sep) + sep + Join(b, sep) + sep + Join(c, sep) + sep + Join(d, sep) + sep + Join(e, sep)
  {
    JoinAppend(a, b, sep);
    JoinAppend(a + b, c, sep);
    JoinAppend(a + b + c, d, sep);
    JoinAppend(a + b + c + d, e, sep);
  }

  /** An empty block joins to the empty line it leaves. */
  lemma JoinBlock(lines: seq<string>)
    ensures Join(BlockLines(lines), "\n") == Join(lines, "\n")
  {
  }

  lemma Regroup(title: string, bullets: string, steps: string, ingredientsHeading: string, instructionsHeading: string, notes: string)
    ensures "# " + title + (ingredientsHeading + "\n") + bullets + ("\n" + instructionsHeading + "\n") + steps + "\n\n" + notes
      == ("# " + title + ingredientsHeading) + "\n" + bullets + "\n" + instructionsHeading + "\n"
         + steps + "\n" + ("" + "\n" + notes)
  {
  }

  lemma HeadingLiterals()
    ensures "\n\n## Ingredients\n\n" == "\n\n## Ingredients\n" + "\n"
    ensures "\n\n## Instructions\n\n" == "\n" + "\n## Instructions\n" + "\n"
  {
  }

  /** The template's literals regrouped around the line feeds that separate
      its runs of lines. */
  lemma TemplateRegroup(title: string, bullets: string, steps: string)
    ensures "# " + title + "\n\n## Ingredients\n\n" + bullets + "\n\n## Instructions\n\n" + steps + "\n\n" + NotesBlock
      == ("# " + title + "\n\n## Ingredients\n") + "\n" + bullets + "\n" + "\n## Instructions\n" + "\n"
         + steps + "\n" + ("" + "\n" + NotesBlock)
  {
    HeadingLiterals();
    Regroup(title, bullets, steps, "\n\n## Ingredients\n", "\n## Instructions\n", NotesBlock);
  }

  /** Joining five non-empty runs of lines whose joins are known. */
  lemma JoinFiveValues(a: seq<string>, b: seq<string>, c: seq<string>, d: seq<string>, e: seq<string>,
                       ja: string, jb: string, jc: string, jd: string, je: string)
    requires a != [] && b != [] && c != [] && d != [] && e != []
    requires Join(a, "\n") == ja && Join(b, "\n") == jb && Join(c, "\n") == jc
    requires Join(d, "\n") == jd && Join(e, "\n") == je
    ensures Join(a + b + c + d + e, "\n") == ja + "\n" + jb + "\n" + jc + "\n" + jd + "\n" + je
  {
    JoinFive(a, b, c, d, e, "\n");
  }

  lemma JoinMiddle()
    ensures Join(["", "## Instructions", ""], "\n") == "\n## Instructions\n"
  {
  }

  lemma JoinTail()
    ensures Join([""] + NotesLines, "\n") == "" + "\n" + NotesBlock
  {
    JoinNotes();
    JoinAppend([""], NotesLines, "\n");
  }

  lemma DocumentLinesParts(title: string, ingredients: seq<string>, instructions: seq<string>)
    ensures DocumentLines(title, ingredients, instructions)
      == ["# " + title, "", "## Ingredients", ""] + BlockLines(Bullets(ingredients)) + ["", "## Instructions", ""]
         + BlockLines(NumberedSteps(instructions)) + ([""] + NotesLines)
  {
  }

  lemma DocumentJoin(title: string, ingredients: seq<string>, instructions: seq<string>)
    ensures Join(DocumentLines(title, ingredients, instructions), "\n")
      == ("# " + title + "\n\n## Ingredients\n") + "\n" + Join(Bullets(ingredients), "\n") + "\n" + "\n## Instructions\n" + "\n"
         + Join(NumberedSteps(instructions), "\n") + "\n" + ("" + "\n" + NotesBlock)
  {
    DocumentLinesParts(title, ingredients, instructions);
    JoinHead(title);
    JoinBlock(Bullets(ingredients));
    JoinBlock(NumberedSteps(instructions));
    JoinMiddle();
    JoinTail();
    JoinFiveValues(["# " + title, "", "## Ingredients", ""], BlockLines(Bullets(ingredients)), ["", "## Instructions", ""],
      BlockLines(NumberedSteps(instructions)), [""] + NotesLines,
      "# " + title + "\n\n## Ingredients\n", Join(Bullets(ingredients), "\n"), "\n## Instructions\n",
      Join(NumberedSteps(instructions), "\n"), "" + "\n" + NotesBlock);
  }

  lemma MarkdownJoin(title: string, ingredients: seq<string>, instructions: seq<string>)
    ensures Markdown(title, ingredients, instructions) == Join(DocumentLines(title, ingredients, instructions), "\n")
  {
    DocumentJoin(title, ingredients, instructions);
    TemplateRegroup(title, Join(Bullets(ingredients), "\n"), Join(NumberedSteps(instructions), "\n"));
  }


  lemma SingleLinesAppend(a: seq<string>, b: seq<string>)
    requires SingleLines(a) && SingleLines(b)
    ensures SingleLines(a + b)
  {
    forall k | 0 <= k < |a + b| ensures '\n' !in (a + b)[k] {
      if k < |a| { assert (a + b)[k] == a[k]; } else { assert (a + b)[k] == b[k - |a|]; }
    }
  }

  lemma BulletsSingle(ingredients: seq<string>)
    requires SingleLines(ingredients)
    ensures SingleLines(BlockLines(Bullets(ingredients)))
  {
    var bullets := Bullets(ingredients);
    forall k | 0 <= k < |bullets| ensures '\n' !in bullets[k] {
      TrimLineFeedFree(ingredients[k]);
    }
  }

  lemma StepsSingle(instructions: seq<string>)
    requires SingleLines(instructions)
    ensures SingleLines(BlockLines(NumberedSteps(instructions)))
  {
    var steps := NumberedSteps(instructions);
    forall k | 0 <= k < |steps| ensures '\n' !in steps[k] {
      TrimLineFeedFree(instructions[k]);
      var digits := NatToString(k + 1);
      forall j | 0 <= j < |digits| ensures digits[j] != '\n' {
        assert IsDigit(digits[j]);
      }
    }
  }

  lemma DocumentLinesSingle(title: string, ingredients: seq<string>, instructions: seq<string>)
    requires '\n' !in title && SingleLines(ingredients) && SingleLines(instructions)
    ensures SingleLines(DocumentLines(title, ingredients, instructions))
  {
    var head := ["# " + title, "", "## Ingredients", ""];
    var b := BlockLines(Bullets(ingredients));
    var middle := ["", "## Instructions", ""];
    var s := BlockLines(NumberedSteps(instructions));
    var tail := [""] + NotesLines;
    BulletsSingle(ingredients);
    StepsSingle(instructions);
    SingleLinesAppend(head, b);
    SingleLinesAppend(head + b, middle);
    SingleLinesAppend(head + b + middle, s);
    SingleLinesAppend(head + b + middle + s, tail);
    assert DocumentLines(title, ingredients, instructions) == head + b + middle + s + tail;
  }

  /** Line by line, for inputs without embedded line feeds: the title
      heading, a blank line, the Ingredients heading, a blank line, one bullet
      per ingredient (trimmed, in order), a blank line, the Instructions
      heading, a blank line, the instructions numbered from 1 (trimmed, in
      order), a blank line and the fixed Notes block. An empty list leaves a
      single empty line. */
  lemma MarkdownLines(title: string, ingredients: seq<string>, instructions: seq<string>)
    requires '\n' !in title
    requires SingleLines(ingredients) && SingleLines(instructions)
    ensures SplitLines(Markdown(title, ingredients, instructions)) ==
      ["# " + title, "", "## Ingredients", ""] + BlockLines(Bullets(ingredients))
      + ["", "## Instructions", ""] + BlockLines(NumberedSteps(instructions))
      + [""] + NotesLines
  {
    MarkdownJoin(title, ingredients, instructions);
    DocumentLinesSingle(title, ingredients, instructions);
    SplitJoin(DocumentLines(title, ingredients, instructions));
  }

  /** Line `k` of the ingredient block is the bullet of ingredient `k`, and
      line `k` of the instruction block is instruction `k` numbered `k + 1`. */
  lemma BlockLinesAt(ingredients: seq<string>, instructions: seq<string>, k: nat)
    ensures k < |ingredients| ==> Bullets(ingredients)[k] == "- " + Trim(ingredients[k])
    ensures k < |instructions| ==>
      var line := NumberedSteps(instructions)[k];
      var digits := NatToString(k + 1);
      && line == digits + ". " + Trim(instructions[k])
      && ParseNat(digits) == k + 1
  {
    ParseNatToString(k + 1);
  }

  /** Ingredient lines that come straight from recognition are already
      trimmed, so each is rendered as exactly "- " followed by the line. */
  lemma RecognizedIngredientsRenderVerbatim(paragraphs: seq<string>)
    ensures var lines := Recognition.IngredientLines(paragraphs);
      forall k :: 0 <= k < |lines| ==> Bullets(lines)[k] == "- " + lines[k]
  {
    var lines := Recognition.IngredientLines(paragraphs);
    Recognition.IngredientLinesMembers(paragraphs);
    forall k | 0 <= k < |lines| ensures Bullets(lines)[k] == "- " + lines[k] {
      assert lines[k] in lines;
      TrimOfTrimmed(lines[k]);
    }
  }

  /** The uploaded file; its contents are not modelled. */
  type ImageFile = string

  /** The wizard's state. */
  class App {
    var step: Step
    var imageFile: Option<ImageFile>
    var ingredients: seq<string>
    var instructions: seq<string>
    var markdown: string

    constructor ()
      ensures step == Upload && imageFile == None
      ensures ingredients == [] && instructions == [] && markdown == ""
    {
      step := Upload;
      imageFile := None;
      ingredients := [];
      instructions := [];
      markdown := "";
    }

    /** `handleImageSelect`: keep the file and move on to region selection. */
    method HandleImageSelect(file: ImageFile)
      modifies this`imageFile, this`step
      ensures imageFile == Some(file) && step == Select
    {
      imageFile := Some(file);
      step := Select;
    }

    /** `handleTextExtracted`: keep both lists as given and move on to editing. */
    method HandleTextExtracted(newIngredients: seq<string>, newInstructions: seq<string>)
      modifies this`ingredients, this`instructions, this`step
      ensures ingredients == newIngredients && instructions == newInstructions && step == Edit
    {
      ingredients := newIngredients;
      instructions := newInstructions;
      step := Edit;
    }

    /** `handleTextOrganized`: render the document and move on to the preview. */
    method HandleTextOrganized(title: string, newIngredients: seq<string>, newInstructions: seq<string>)
      modifies this`markdown, this`step
      ensures markdown == Markdown(title, newIngredients, newInstructions) && step == Preview
    {
      markdown := Markdown(title, newIngredients, newInstructions);
      step := Preview;
    }

    /** `handleBack`. */
    method HandleBack()
      modifies this`step
      ensures step == Back(old(step))
    {
      step := Back(step);
    }
  }
}
