# Recipe scanner core, modelled in Dafny

The recipe scanner is a four-step browser wizard: upload a photo of a
recipe, draw regions over it and tag each one as ingredients or
instructions, edit the recognized lines, and get a markdown document. This
project models the logic behind those steps and proves properties of it:

- `binarize.dfy` (module `Binarize`): the black-and-white filter the region
  selector runs over the canvas pixels. It is an in-place stride-4 pass over
  an RGBA byte array, proved equal to a per-pixel specification. Lemmas then
  state what each pixel becomes, that a higher threshold never whitens a
  pixel, and that a second pass changes nothing.
- `regions.dfy` (modules `Options`, `Regions`): the optional value the
  model uses for `null` and for rejected promises, and the committed region
  record (`Box`).
- `selection.dfy` (module `Selection`): the region selector as a class
  whose fields are the component's state. Its methods are the pointer
  gesture (`startDrawing`, `draw`, `stopDrawing`), the display scale, the
  category buttons, "Clear All", "Extract Text", and `handleComplete`. The
  pointer conversion (`getCoordinates`) and the drag normalisation are pure
  functions with their own lemmas.
- `recognition.dfy` (module `Recognition`): `processText` and the
  aggregation in `handleComplete`, as pure functions over the engine's
  output. The OCR engine is a parameter. The lemmas characterise the
  output lines, show that order is preserved, and tie the aggregate to a
  reference definition.
- `text.dfy` (module `Text`): the JavaScript string operations the core
  relies on, with their JavaScript meaning: `trim` with the ECMAScript
  white-space set, `split(/\n/)`, `join`, and the decimal rendering of a
  number in a template literal. Round-trip and uniqueness lemmas come with
  them.
- `wizard.dfy` (module `Wizard`): the wizard's step machine and the
  markdown template. A class holds the wizard's state. Lemmas prove the
  template equals the join of its lines and, for single-line inputs, give
  the exact line-by-line layout of the document.
- `editor.dfy` (module `Editor`): the text editor as a class with the two
  lists and the two input boxes. It covers add, remove, "Generate Recipe"
  and its enable condition. Removal is proved against a slicing
  specification.

Integers are unbounded and coordinates are `real`; see "Left out" for
what that does not capture.

Behaviour of the code that the model keeps as written:

- A region's category is the one selected when the pointer is released,
  not the one stored at the press (`Selection.ReleaseCategoryScenario`).
- Every instruction line gets a trailing `.`, even if it already ends with
  one.
- Every ingredient is rendered as `- ` followed by the line, including
  lines that start with `#`.
- The Notes fields (prep time, cook time, servings) are always blank
  literals.
- `handleComplete` hands the processed regions to its caller but does not
  store them back into the selector's own list.
- When recognition of any region rejects, the OCR worker is not
  terminated.
- The binarization pass is idempotent: a second pass with the same
  threshold changes nothing (`Binarize.ThresholdIdempotent`). The program
  in any case redraws the unfiltered image before every pass
  (src/components/ImageSelector.tsx:117-118 and 181-183).

## Model

| member | source | states |
|---|---|---|
| Binarize.Thresholded | src/components/ImageSelector.tsx:91-104 | the per-pixel specification of the pass: the output is as long as the buffer (what each pixel becomes is stated by `ThresholdedAt` and `ThresholdedPixel`) |
| Binarize.ApplyThresholding | src/components/ImageSelector.tsx:83-110 | after the pass, the buffer is exactly `Thresholded` of the old buffer: each pixel's R, G and B all take the binary colour of that pixel's original R, G, B; alpha bytes are untouched |
| Binarize.ThresholdedPixel | src/components/ImageSelector.tsx:91-104 | the length is kept; R, G and B of each pixel are all 0 or all 255 and equal to one another; alpha is unchanged; the pixel is white iff `0.3R + 0.59G + 0.11B >= threshold` (scaled by 100, exact) |
| Binarize.ThresholdMonotone | src/components/ImageSelector.tsx:97-100 | a pixel that comes out black at one threshold comes out black at every higher threshold |
| Binarize.ThresholdedSnoc | src/components/ImageSelector.tsx:91-104 | thresholding a buffer with one more pixel appended is thresholding the buffer, followed by that pixel's output |
| Binarize.ThresholdedAt | src/components/ImageSelector.tsx:91-104 | the four bytes of pixel p of the output are the thresholded colour three times and the pixel's own alpha |
| Binarize.BinaryColorStable | src/components/ImageSelector.tsx:97-103 | a pixel whose three channels already hold its binary colour keeps that colour |
| Binarize.ThresholdIdempotent | src/components/ImageSelector.tsx:91-104 | thresholding an already thresholded buffer with the same threshold gives it back unchanged |
| Selection.GetCoordinates | src/components/ImageSelector.tsx:127-142 | no canvas gives no point; otherwise the point times the scale, plus the canvas offset, is the pointer position |
| Selection.DisplayScale | src/components/ImageSelector.tsx:47-50 | the scale lies in (0, 1]; the scaled image fits the container; the scale is 1 iff the image already fits; otherwise the scaled image spans the container exactly |
| Selection.DragDraft | src/components/ImageSelector.tsx:164-168 | the draft keeps the press point as origin and the category; both extents are set, and origin plus extent is the current pointer position |
| Selection.NewBox | src/components/ImageSelector.tsx:230-239 | the new region occupies exactly the committed rectangle, carries the category, the clock stamp as id and the crop, and has no text yet |
| Selection.Normalize | src/components/ImageSelector.tsx:202-217 | nothing is committed iff an extent is unset or zero; a committed rectangle has positive width and height |
| Selection.NormalizeCoversDrag | src/components/ImageSelector.tsx:208-217 | the committed rectangle spans exactly from the smaller to the larger corner on each axis, so it contains the same points as the drag |
| Selection.DragDirectionIrrelevant | src/components/ImageSelector.tsx:164-168 | dragging from a to b commits the same rectangle as dragging from b to a |
| Selection.DragScaleRoundTrip | src/components/ImageSelector.tsx:136-139 | the image-space drag extent, scaled back, equals the screen-space pointer movement |
| Selection.Selector.constructor | src/components/ImageSelector.tsx:27-32 | no regions, not drawing, no draft, "ingredient" selected, not processing, scale 1 |
| Selection.Selector.ImageLoaded | src/components/ImageSelector.tsx:36-59 | the image becomes available, its width is recorded, and the scale becomes `DisplayScale` of the container and image widths |
| Selection.Selector.Resize | src/components/ImageSelector.tsx:62-81 | with an image loaded the scale becomes `DisplayScale` of the new container width and the loaded image's own width; before that nothing changes |
| Selection.Selector.SelectType | src/components/ImageSelector.tsx:302-311 | the selected category becomes the one chosen |
| Selection.Selector.ClearAll | src/components/ImageSelector.tsx:355 | the region list becomes empty |
| Selection.Selector.CanExtract | src/components/ImageSelector.tsx:365 | "Extract Text" is enabled iff there is a region and no extraction is running |
| Selection.Selector.StartDrawing | src/components/ImageSelector.tsx:144-154 | without a canvas nothing changes; otherwise drawing starts with a draft at the pointer's image position, the selected category, and no extent |
| Selection.Selector.Draw | src/components/ImageSelector.tsx:156-171 | when not drawing or without a canvas the draft is unchanged; otherwise its extent becomes pointer minus origin, and the origin and category are kept |
| Selection.Selector.StopDrawing | src/components/ImageSelector.tsx:201-247 | the gesture always ends (not drawing, no draft, not processing); exactly one region is appended iff the image is loaded, both extents are non-zero and the crop encodes; that region is the normalised rectangle with the category selected at release and empty text; otherwise the list is unchanged |
| Selection.Selector.HandleComplete | src/components/ImageSelector.tsx:270-294 | the result is `Extract` of the committed regions; the worker is terminated iff every recognition succeeded; the region list itself is unchanged and the busy flag is clear afterwards |
| Selection.ReleaseCategoryScenario | src/components/ImageSelector.tsx:151 | a press with "ingredient" selected and a release after switching to "instruction" commits an instruction region |
| Selection.ZeroExtentScenario | src/components/ImageSelector.tsx:202-206 | a release at the press point commits no region |
| Recognition.ProcessText | src/components/ImageSelector.tsx:253-268 | every line is non-empty and trimmed; ingredient lines hold no line feed; instruction lines are at most one per paragraph and end with `.` |
| Recognition.Extract | src/components/ImageSelector.tsx:270-290 | extraction fails iff some region's recognition rejects; on success it hands on one region per committed region, each equal to it apart from `text` |
| Recognition.IngredientLinesMembers | src/components/ImageSelector.tsx:254-260 | every ingredient line is non-empty, trimmed and free of line feeds; a string is an ingredient line iff it is the non-empty trim of some line of some paragraph |
| Recognition.InstructionLinesMembers | src/components/ImageSelector.tsx:261-267 | at most one line per paragraph; a string is an instruction line iff it is the trim of some non-blank paragraph followed by `.` |
| Recognition.ProcessTextAppend | src/components/ImageSelector.tsx:253-268 | for both categories, the lines of paragraphs `a + b` are the lines of `a` followed by the lines of `b` |
| Recognition.ProcessBoxes | src/components/ImageSelector.tsx:275-282 | succeeds iff every region is recognized; then it has one region per input region, in order, each equal to its input apart from `text`, which is the processed recognition output |
| Recognition.CollectAppend | src/components/ImageSelector.tsx:286-288 | the lines collected from regions `a + b` are those from `a` followed by those from `b` |
| Recognition.ExtractCorrect | src/components/ImageSelector.tsx:270-290 | extraction fails iff some region's recognition rejects; on success both lists equal the reference `RecognizedLines` (processed output of each region of that category, in commit order), and the regions handed on match the committed ones apart from `text` |
| Recognition.CollectProcessed | src/components/ImageSelector.tsx:286-288 | collecting over the processed regions gives the reference lines of that category |
| Text.Trim | src/components/ImageSelector.tsx:258 | the result has no white space at either end, is no longer than the input, and is empty iff the input is all white space |
| Text.SkipSpace | src/components/ImageSelector.tsx:258 | the leading white space ends at the first position that is not white space (or at the end) |
| Text.SkipSpaceBack | src/components/ImageSelector.tsx:258 | the trailing white space starts just after the last character that is not white space (or at the lower bound) |
| Text.TrimInfix | src/components/ImageSelector.tsx:258 | the result is an infix of the input with only white space before and after it |
| Text.TrimUnique | src/components/ImageSelector.tsx:258 | any trimmed infix with only white space around it is the trim |
| Text.TrimIdempotent | src/App.tsx:34 | trimming twice equals trimming once |
| Text.TrimOfTrimmed | src/App.tsx:34 | an already trimmed string is its own trim |
| Text.TrimLineFeedFree | src/components/ImageSelector.tsx:257-258 | trimming a string without a line feed gives a string without one |
| Text.SplitLines | src/components/ImageSelector.tsx:257 | `split(/\n/)` always yields at least one piece, and no piece holds a line feed |
| Text.JoinLength | src/App.tsx:34-38 | the length of the join is the pieces' total length plus one separator per gap (what the join contains is pinned down by `JoinAppend`, `JoinSplit` and `SplitJoin`) |
| Text.JoinSplit | src/components/ImageSelector.tsx:257 | joining the pieces with line feeds gives the string back |
| Text.SplitJoin | src/App.tsx:34 | splitting the line-feed join of one or more single-line strings gives those strings back |
| Text.SplitAppend | src/components/ImageSelector.tsx:257 | the pieces of `a + "\n" + b` are those of `a` followed by those of `b` |
| Text.JoinAppend | src/App.tsx:34 | joining `a + b` is joining `a`, the separator, then joining `b` (both non-empty) |
| Text.NatToString | src/App.tsx:38 | the decimal rendering is non-empty, all digits, and starts with `0` iff the number is 0 |
| Text.ParseNatToString | src/App.tsx:38 | parsing the decimal rendering gives the number back |
| Wizard.Back | src/App.tsx:52-65 | one step to the left in the progress bar, staying on the first step |
| Wizard.BackReachesUpload | src/App.tsx:52-65 | three backs reach the upload step from any step, and upload is a fixed point |
| Wizard.Markdown | src/App.tsx:30-46 | every document starts with `# ` and the title and ends with the fixed Notes block |
| Wizard.MarkdownJoin | src/App.tsx:30-46 | the template is the line-feed join of the document's lines |
| Wizard.JoinNotes | src/App.tsx:40-46 | the Notes block is the join of its lines |
| Wizard.MarkdownLines | src/App.tsx:30-46 | for single-line inputs, the document's lines are: heading, blank, Ingredients heading, blank, one bullet per ingredient (or one blank line), blank, Instructions heading, blank, one numbered line per instruction (or one blank line), blank, the Notes lines. Recognized instruction lines can keep a multi-line paragraph's inner line feeds, so this layout need not apply to them; `MarkdownJoin` covers every input |
| Wizard.DocumentLinesSingle | src/App.tsx:30-46 | for single-line inputs, no line of the document holds a line feed |
| Wizard.BlockLinesAt | src/App.tsx:34-38 | line k of the ingredient block is `- ` plus the trimmed ingredient k; line k of the instruction block is the decimal `k + 1`, `. `, and the trimmed instruction k, and those digits parse back to `k + 1` |
| Wizard.RecognizedIngredientsRenderVerbatim | src/App.tsx:34 | lines that come straight from recognition are rendered as exactly `- ` followed by the line |
| Wizard.App.constructor | src/App.tsx:11-17 | starts on the upload step with no file, empty lists and an empty document |
| Wizard.App.HandleImageSelect | src/App.tsx:19-22 | keeps the file and moves to the select step |
| Wizard.App.HandleTextExtracted | src/App.tsx:24-27 | keeps both lists as given and moves to the edit step |
| Wizard.App.HandleTextOrganized | src/App.tsx:29-50 | the document becomes the template applied to the title and lists, and the step becomes preview |
| Wizard.App.HandleBack | src/App.tsx:52-65 | the step becomes `Back` of the previous step |
| Editor.WithoutIndexSpec | src/components/TextEditor.tsx:46-52 | removing at an index in range gives the elements before it followed by those after it; any other index leaves the list unchanged |
| Editor.WithoutIndex | src/components/TextEditor.tsx:46-52 | the filter by index: the length drops by one iff the index is in range (the exact result is stated by `WithoutIndexSpec`) |
| Editor.WithoutIndexReinsert | src/components/TextEditor.tsx:46-52 | putting the removed element back at its index restores the list |
| Editor.WithoutIndexMembers | src/components/TextEditor.tsx:46-52 | every element left after a removal was in the list |
| Editor.WithoutIndexClean | src/components/TextEditor.tsx:46-52 | removing from a list of non-empty trimmed entries keeps it so |
| Editor.AppendTrimmedClean | src/components/TextEditor.tsx:32-44 | appending the trimmed text of a non-blank input box keeps a list of non-empty trimmed entries so |
| Editor.TextEditor.constructor | src/components/TextEditor.tsx:21-26 | the title is "Recipe Title", the lists are the initial ones, and both input boxes are empty |
| Editor.TextEditor.AddIngredient | src/components/TextEditor.tsx:32-37 | a non-blank box appends its trimmed text and is cleared; a blank box changes nothing; instructions and title are outside the frame; a clean list stays clean |
| Editor.TextEditor.AddInstruction | src/components/TextEditor.tsx:39-44 | the same for instructions; ingredients and title are outside the frame |
| Editor.TextEditor.RemoveIngredient | src/components/TextEditor.tsx:46-48 | drops exactly the ingredient at the index, keeping order; an index out of range changes nothing |
| Editor.TextEditor.RemoveInstruction | src/components/TextEditor.tsx:50-52 | the same for instructions |
| Editor.TextEditor.HandleComplete | src/components/TextEditor.tsx:54-56 | hands on the title and both lists unchanged |
| Editor.TextEditor.CanGenerate | src/components/TextEditor.tsx:157 | "Generate Recipe" is enabled iff at least one list is non-empty |
| Editor.TextEditor.SetTitle | src/components/TextEditor.tsx:64 | the title becomes the typed value |
| Editor.TextEditor.SetNewIngredient | src/components/TextEditor.tsx:95 | the ingredient box holds the typed value; nothing else is in the frame |
| Editor.TextEditor.SetNewInstruction | src/components/TextEditor.tsx:130 | the instruction box holds the typed value; nothing else is in the frame |

## Left out

- Canvas drawing is not modelled. This covers `drawImage`, `clearRect`, the outlines of committed and in-progress regions, and the crop canvas. The crop's encoding is a parameter of `StopDrawing` (`None` when `toDataURL` throws).
- Image decoding and object URLs are not modelled; `ImageLoaded` takes the container and image widths.
- The threshold slider and `handleThresholdChange` (`parseInt` of the slider value, default 128) are not modelled; `ApplyThresholding` takes the threshold as a parameter.
- The threshold is re-applied from a fresh draw of the unfiltered image, so in the program filtering never sees filtered data. The model states the filter's properties on any buffer.
- Binarize.ApplyThresholding: luma is computed in exact arithmetic. JavaScript doubles can round `0.3R + 0.59G + 0.11B` across the threshold when the exact value is very close to it; that case is not captured.
- Binarize.ApplyThresholding: requires the buffer length to be a multiple of 4. `ImageData` buffers always are; on other lengths the source would read past the end.
- Selection.GetCoordinates: requires a positive scale. A zero-width container (scale 0, division by zero) is not modelled, and neither is floating-point rounding of the coordinates.
- Touch events are treated like mouse events: the first touch point is the pointer position.
- The Tesseract engine is a parameter, `recognize`. A failure of `createWorker` behaves like a rejected recognition. How paragraphs are found in the image is not modelled.
- `Promise.all` runs recognitions concurrently. The model runs them in region order, which gives the same result because the result keeps region order. React's batching of state updates is treated as atomic per handler.
- `handleComplete`'s error is not surfaced to the user in the source; the model returns `None`.
- Region ids are the clock reading `Date.now().toString()`, passed in as `stamp`. Two regions committed in the same millisecond would share an id; the model does not rule that out.
- `editIngredient` does not parse, and `updateIngredient` is used but never defined. Neither is modelled. The commented-out `removeBox` is not modelled either.
- The Enter-key handlers (`onKeyPress`) are not modelled separately: they only call `AddIngredient` or `AddInstruction`.
- The clipboard copy and its alert are I/O and are not modelled.
- The upload widget, the preview pane and the additional-details form are presentation only; they are not part of this model.
