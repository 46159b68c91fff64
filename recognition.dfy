/**
 * What the selector does with the OCR engine's output: the per-category
 * clean-up of recognized paragraphs (`processText`) and the aggregation of
 * the per-region lines into the ordered ingredient and instruction lists
 * (`handleComplete`). The engine itself is a parameter: a function from a
 * region to its paragraphs, or `None` when recognition rejects.
 */
module Recognition {
  import opened Options
  import opened Text
  import opened Regions

  /** `lines.map(line => line.trim())`. */
  function TrimAll(lines: seq<string>): seq<string> {
    seq(|lines|, k requires 0 <= k < |lines| => Trim(lines[k]))
  }

  /** `lines.filter(line => line.length > 0)`. */
  function DropEmpty(lines: seq<string>): seq<string> {
    if lines == [] then []
    else (if lines[0] == "" then [] else [lines[0]]) + DropEmpty(lines[1..])
  }

  /** `lines.map(line => line + '.')`. */
  function AppendPeriod(lines: seq<string>): seq<string> {
    seq(|lines|, k requires 0 <= k < |lines| => lines[k] + ".")
  }

  /** The ingredient lines one paragraph yields: split on line feeds, trim,
      drop the empty ones. */
  function ParagraphIngredients(paragraph: string): seq<string> {
    DropEmpty(TrimAll(SplitLines(paragraph)))
  }

  /** `processText` for an ingredient region: the `flatMap` of
      `ParagraphIngredients` over the paragraphs. */
  function IngredientLines(paragraphs: seq<string>): seq<string> {
    if paragraphs == [] then []
    else ParagraphIngredients(paragraphs[0]) + IngredientLines(paragraphs[1..])
  }

  /** `processText` for an instruction region: each paragraph trimmed, the
      empty ones dropped, and a period appended to every survivor. */
  function InstructionLines(paragraphs: seq<string>): seq<string> {
    AppendPeriod(DropEmpty(TrimAll(paragraphs)))
  }


  lemma {:induction false} TrimAllAppend(a: seq<string>, b: seq<string>)
    ensures TrimAll(a + b) == TrimAll(a) + TrimAll(b)
  {
    var l, r := TrimAll(a + b), TrimAll(a) + TrimAll(b);
    assert |l| == |r|;
    forall k | 0 <= k < |l| ensures l[k] == r[k] {
      assert l[k] == Trim((a + b)[k]);
      if k < |a| {
        assert (a + b)[k] == a[k];
        assert r[k] == TrimAll(a)[k] == Trim(a[k]);
      } else {
        assert (a + b)[k] == b[k - |a|];
        assert r[k] == TrimAll(b)[k - |a|] == Trim(b[k - |a|]);
      }
    }
  }

  lemma {:induction false} AppendPeriodAppend(a: seq<string>, b: seq<string>)
    ensures AppendPeriod(a + b) == AppendPeriod(a) + AppendPeriod(b)
  {
    var l, r := AppendPeriod(a + b), AppendPeriod(a) + AppendPeriod(b);
    assert |l| == |r|;
    forall k | 0 <= k < |l| ensures l[k] == r[k] {
      if k < |a| { assert (a + b)[k] == a[k]; } else { assert (a + b)[k] == b[k - |a|]; }
    }
  }

  lemma {:induction false} DropEmptyAppend(a: seq<string>, b: seq<string>)
    ensures DropEmpty(a + b) == DropEmpty(a) + DropEmpty(b)
  {
    if a == [] {
      assert a + b == b;
    } else {
      assert (a + b)[0] == a[0];
      assert (a + b)[1..] == a[1..] + b;
      DropEmptyAppend(a[1..], b);
    }
  }

  /** Filtering keeps exactly the non-empty elements, and never lengthens. */
  lemma {:induction false} DropEmptyMembers(lines: seq<string>)
    ensures |DropEmpty(lines)| <= |lines|
    ensures forall x :: x in DropEmpty(lines) <==> x in lines && x != ""
  {
    if lines != [] {
      DropEmptyMembers(lines[1..]);
      assert lines == [lines[0]] + lines[1..];
    }
  }

  lemma TrimAllSource(lines: seq<string>, x: string)
    requires x in TrimAll(lines)
    ensures exists line :: line in lines && x == Trim(line)
  {
    var k :| 0 <= k < |TrimAll(lines)| && TrimAll(lines)[k] == x;
    assert lines[k] in lines;
  }

  lemma TrimAllHits(lines: seq<string>, line: string)
    requires line in lines
    ensures Trim(line) in TrimAll(lines)
  {
    var k :| 0 <= k < |lines| && lines[k] == line;
    assert TrimAll(lines)[k] == Trim(line);
  }

  lemma TrimAllMembers(lines: seq<string>)
    ensures forall x :: x in TrimAll(lines) <==> exists line :: line in lines && x == Trim(line)
  {
    forall x | x in TrimAll(lines) ensures exists line :: line in lines && x == Trim(line) {
      TrimAllSource(lines, x);
    }
    forall line | line in lines ensures Trim(line) in TrimAll(lines) {
      TrimAllHits(lines, line);
    }
  }

  lemma AppendPeriodMembers(lines: seq<string>)
    ensures forall x :: x in AppendPeriod(lines) <==> exists line :: line in lines && x == line + "."
  {
    forall x | x in AppendPeriod(lines) ensures exists line :: line in lines && x == line + "." {
      var k :| 0 <= k < |lines| && AppendPeriod(lines)[k] == x;
      assert lines[k] in lines;
    }
    forall x | exists line :: line in lines && x == line + "." ensures x in AppendPeriod(lines) {
      var line :| line in lines && x == line + ".";
      var k :| 0 <= k < |lines| && lines[k] == line;
      assert AppendPeriod(lines)[k] == x;
    }
  }

  /** `x` is the trim of some line of paragraph `p`. */
  ghost predicate IsTrimmedLineOf(x: string, p: string) {
    exists line :: line in SplitLines(p) && x == Trim(line)
  }

  lemma ParagraphIngredientsMembers(p: string)
    ensures forall x :: x in ParagraphIngredients(p) <==> x != "" && IsTrimmedLineOf(x, p)
    ensures forall x :: x in ParagraphIngredients(p) ==> IsTrimmed(x) && '\n' !in x
  {
    var lines := SplitLines(p);
    TrimAllMembers(lines);
    DropEmptyMembers(TrimAll(lines));
    forall x | x in ParagraphIngredients(p) ensures IsTrimmed(x) && '\n' !in x {
      var line :| line in lines && x == Trim(line);
      TrimLineFeedFree(line);
    }
  }

  /** Every ingredient line is non-empty, trimmed and a single line; and a
      string is an ingredient line exactly when it is the non-empty trim of
      some line of some paragraph. */
  lemma {:induction false} IngredientLinesMembers(paragraphs: seq<string>)
    ensures forall x :: x in IngredientLines(paragraphs) ==> x != "" && IsTrimmed(x) && '\n' !in x
    ensures forall x :: x in IngredientLines(paragraphs) <==>
      x != "" && exists p :: p in paragraphs && IsTrimmedLineOf(x, p)
  {
    if paragraphs != [] {
      var p := paragraphs[0];
      IngredientLinesMembers(paragraphs[1..]);
      ParagraphIngredientsMembers(p);
      assert paragraphs == [p] + paragraphs[1..];
    }
  }

  /** Instruction processing yields at most one line per paragraph: the
      trimmed paragraph with a period, for each paragraph that is not blank. */
  lemma InstructionLinesMembers(paragraphs: seq<string>)
    ensures |InstructionLines(paragraphs)| <= |paragraphs|
    ensures forall x :: x in InstructionLines(paragraphs) <==>
      exists p :: p in paragraphs && Trim(p) != "" && x == Trim(p) + "."
  {
    var trimmed := TrimAll(paragraphs);
    var kept := DropEmpty(trimmed);
    DropEmptyMembers(trimmed);
    TrimAllMembers(paragraphs);
    AppendPeriodMembers(kept);
  }

  /** Each ingredient line, read by position, is non-empty, trimmed and a
      single line. */
  lemma IngredientLinesClean(paragraphs: seq<string>)
    ensures forall k :: 0 <= k < |IngredientLines(paragraphs)| ==>
      var x := IngredientLines(paragraphs)[k]; x != "" && IsTrimmed(x) && '\n' !in x
  {
    var lines := IngredientLines(paragraphs);
    IngredientLinesMembers(paragraphs);
    forall k | 0 <= k < |lines| ensures lines[k] != "" && IsTrimmed(lines[k]) && '\n' !in lines[k] {
      assert lines[k] in lines;
    }
  }

  /** Each instruction line, read by position, is a non-blank trimmed
      paragraph followed by a period, so it is non-empty and trimmed too. */
  lemma InstructionLinesClean(paragraphs: seq<string>)
    ensures |InstructionLines(paragraphs)| <= |paragraphs|
    ensures forall k :: 0 <= k < |InstructionLines(paragraphs)| ==>
      var x := InstructionLines(paragraphs)[k]; x != "" && IsTrimmed(x) && x[|x| - 1] == '.'
  {
    var lines := InstructionLines(paragraphs);
    InstructionLinesMembers(paragraphs);
    forall k | 0 <= k < |lines| ensures lines[k] != "" && IsTrimmed(lines[k]) && lines[k][|lines[k]| - 1] == '.' {
      assert lines[k] in lines;
      var p :| p in paragraphs && Trim(p) != "" && lines[k] == Trim(p) + ".";
      assert lines[k][0] == Trim(p)[0];
    }
  }

  /** `processText(paragraphs, type)`. Whatever the category, every line it
      yields is non-empty and trimmed; ingredient lines hold no line feed,
      and instruction lines, at most one per paragraph, end with a period. */
  function ProcessText(paragraphs: seq<string>, kind: Category): (lines: seq<string>)
    ensures Clean(lines)
    ensures kind == Ingredient ==> SingleLines(lines)
    ensures kind == Instruction ==>
      |lines| <= |paragraphs| && forall k :: 0 <= k < |lines| ==> lines[k][|lines[k]| - 1] == '.'
  {
    match kind
    case Ingredient =>
      IngredientLinesClean(paragraphs);
      IngredientLines(paragraphs)
    case Instruction =>
      InstructionLinesClean(paragraphs);
      InstructionLines(paragraphs)
  }

  /** Processing respects paragraph order: the lines of `a + b` are the
      lines of `a` followed by the lines of `b`, for either category. */
  lemma ProcessTextAppend(a: seq<string>, b: seq<string>, kind: Category)
    ensures ProcessText(a + b, kind) == ProcessText(a, kind) + ProcessText(b, kind)
  {
    match kind
    case Ingredient =>
      IngredientLinesAppend(a, b);
    case Instruction =>
      TrimAllAppend(a, b);
      DropEmptyAppend(TrimAll(a), TrimAll(b));
      AppendPeriodAppend(DropEmpty(TrimAll(a)), DropEmpty(TrimAll(b)));
  }

  lemma {:induction false} IngredientLinesAppend(a: seq<string>, b: seq<string>)
    ensures IngredientLines(a + b) == IngredientLines(a) + IngredientLines(b)
  {
    if a == [] {
      assert a + b == b;
    } else {
      assert (a + b)[0] == a[0];
      assert (a + b)[1..] == a[1..] + b;
      IngredientLinesAppend(a[1..], b);
    }
  }

  /** The region with its recognized lines stored; nothing else changes. */
  function WithText(box: Box, paragraphs: seq<string>): Box {
    box.(text := ProcessText(paragraphs, box.kind))
  }

  /** The `Promise.all` over the regions: every region recognized and
      processed, in region order. It rejects as soon as any one recognition
      rejects; otherwise it has one region per input region, equal to it but
      for `text`. */
  function ProcessBoxes(boxes: seq<Box>, recognize: Box -> Option<seq<string>>): (r: Option<seq<Box>>)
    ensures r.Some? <==> forall k :: 0 <= k < |boxes| ==> recognize(boxes[k]).Some?
    ensures r.Some? ==> |r.value| == |boxes|
    ensures r.Some? ==> forall k :: 0 <= k < |boxes| ==>
      r.value[k] == boxes[k].(text := ProcessText(recognize(boxes[k]).value, boxes[k].kind))
  {
    if boxes == [] then Some([])
    else
      match recognize(boxes[0])
      case None => None
      case Some(paragraphs) =>
        match ProcessBoxes(boxes[1..], recognize)
        case None => None
        case Some(rest) => Some([WithText(boxes[0], paragraphs)] + rest)
  }

  /** `boxes.filter(box => box.type === kind)`. */
  function OfKind(boxes: seq<Box>, kind: Category): seq<Box> {
    if boxes == [] then []
    else (if boxes[0].kind == kind then [boxes[0]] else []) + OfKind(boxes[1..], kind)
  }

  /** `boxes.flatMap(box => box.text || [])`. */
  function Texts(boxes: seq<Box>): seq<string> {
    if boxes == [] then [] else boxes[0].text + Texts(boxes[1..])
  }

  /** The lines of every region of one category, concatenated in region order. */
  function Collect(boxes: seq<Box>, kind: Category): seq<string> {
    Texts(OfKind(boxes, kind))
  }

  /** The lines collected from a leading region followed by the rest. */
  lemma CollectCons(b: Box, rest: seq<Box>, kind: Category)
    ensures Collect([b] + rest, kind) == (if b.kind == kind then b.text else []) + Collect(rest, kind)
  {
    assert ([b] + rest)[1..] == rest;
    var head := if b.kind == kind then [b] else [];
    TextsAppend(head, OfKind(rest, kind));
    if b.kind == kind {
      assert Texts(head) == b.text + Texts([]);
    }
  }

  /** Aggregation preserves commit order: the lines of `a + b` are those of
      `a` followed by those of `b`. */
  lemma {:induction false} CollectAppend(a: seq<Box>, b: seq<Box>, kind: Category)
    ensures Collect(a + b, kind) == Collect(a, kind) + Collect(b, kind)
  {
    if a == [] {
      assert a + b == b;
    } else {
      assert a + b == [a[0]] + (a[1..] + b);
      assert a == [a[0]] + a[1..];
      CollectCons(a[0], a[1..] + b, kind);
      CollectCons(a[0], a[1..], kind);
      CollectAppend(a[1..], b, kind);
    }
  }

  lemma {:induction false} TextsAppend(a: seq<Box>, b: seq<Box>)
    ensures Texts(a + b) == Texts(a) + Texts(b)
  {
    if a == [] {
      assert a + b == b;
    } else {
      assert (a + b)[0] == a[0];
      assert (a + b)[1..] == a[1..] + b;
      TextsAppend(a[1..], b);
    }
  }

  /** What a successful extraction hands to its caller. */
  datatype Extraction = Extraction(ingredients: seq<string>, instructions: seq<string>, boxes: seq<Box>)

  /** The pure part of `handleComplete`: recognize and process every region,
      then aggregate the two lists; `None` when any recognition rejects. */
  function Extract(boxes: seq<Box>, recognize: Box -> Option<seq<string>>): (r: Option<Extraction>)
    ensures r.None? <==> exists k :: 0 <= k < |boxes| && recognize(boxes[k]).None?
    ensures r.Some? ==> |r.value.boxes| == |boxes|
    ensures r.Some? ==> forall k :: 0 <= k < |boxes| ==> r.value.boxes[k].(text := boxes[k].text) == boxes[k]
  {
    match ProcessBoxes(boxes, recognize)
    case None => None
    case Some(processed) =>
      Some(Extraction(Collect(processed, Ingredient), Collect(processed, Instruction), processed))
  }

  /** Reference reading of the aggregate: for every region of the category,
      in commit order, the processed output of the engine on that region. */
  function RecognizedLines(boxes: seq<Box>, recognize: Box -> Option<seq<string>>, kind: Category): seq<string>
    requires forall k :: 0 <= k < |boxes| ==> recognize(boxes[k]).Some?
  {
    if boxes == [] then []
    else
      (if boxes[0].kind == kind then ProcessText(recognize(boxes[0]).value, kind) else [])
      + RecognizedLines(boxes[1..], recognize, kind)
  }

  /** Extraction fails exactly when some recognition rejects; when it
      succeeds, the ingredient and instruction lists are the processed OCR
      output of the regions of that category in commit order, and the
      enriched regions match the committed ones in number and order. */
  lemma {:induction false} ExtractCorrect(boxes: seq<Box>, recognize: Box -> Option<seq<string>>)
    ensures Extract(boxes, recognize).None? <==> exists k :: 0 <= k < |boxes| && recognize(boxes[k]).None?
    ensures Extract(boxes, recognize).Some? ==>
      var e := Extract(boxes, recognize).value;
      && e.ingredients == RecognizedLines(boxes, recognize, Ingredient)
      && e.instructions == RecognizedLines(boxes, recognize, Instruction)
      && |e.boxes| == |boxes|
      && forall k :: 0 <= k < |boxes| ==> e.boxes[k].(text := boxes[k].text) == boxes[k]
  {
    if Extract(boxes, recognize).Some? {
      var processed := ProcessBoxes(boxes, recognize).value;
      CollectProcessed(boxes, recognize, processed, Ingredient);
      CollectProcessed(boxes, recognize, processed, Instruction);
    }
  }

  lemma {:induction false} CollectProcessed(boxes: seq<Box>, recognize: Box -> Option<seq<string>>,
                                            processed: seq<Box>, kind: Category)
    requires forall k :: 0 <= k < |boxes| ==> recognize(boxes[k]).Some?
    requires |processed| == |boxes|
    requires forall k :: 0 <= k < |boxes| ==> processed[k] == WithText(boxes[k], recognize(boxes[k]).value)
    ensures Collect(processed, kind) == RecognizedLines(boxes, recognize, kind)
  {
    if boxes != [] {
      assert processed == [processed[0]] + processed[1..];
      CollectCons(processed[0], processed[1..], kind);
      CollectProcessed(boxes[1..], recognize, processed[1..], kind);
    }
  }
}
