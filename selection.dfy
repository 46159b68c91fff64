/**
 * The region selector's interaction state: pointer positions converted into
 * image space, the idle/drawing gesture over `drawing` and `currentBox`, the
 * commit that normalises the drag and appends a region to `boxes`, and the
 * extraction that runs the OCR engine over the committed regions.
 */
module Selection {
  import opened Options
  import opened Regions
  import opened Recognition

  /** A pointer position in screen pixels (`clientX`, `clientY`). */
  datatype ScreenPoint = ScreenPoint(x: real, y: real)

  /** A position in source-image pixels. */
  datatype ImagePoint = ImagePoint(x: real, y: real)

  /** Where the canvas sits on screen (`getBoundingClientRect`). */
  datatype CanvasRect = CanvasRect(left: real, top: real)

  /** An axis-aligned rectangle in image space. */
  datatype Rect = Rect(x: real, y: real, width: real, height: real)

  /** The in-progress region (`Partial<Box>`): origin and category from the
      press, and an extent once the pointer has moved. */
  datatype Draft = Draft(x: real, y: real, kind: Category, width: Option<real>, height: Option<real>)

  function Min(a: real, b: real): real { if a <= b then a else b }
  function Max(a: real, b: real): real { if a <= b then b else a }

  /** `getCoordinates`: the pointer position relative to the canvas, divided
      by the display scale; nothing while the canvas is not mounted. Scaling
      the result back and adding the canvas offset gives the pointer
      position again. */
  function GetCoordinates(canvas: Option<CanvasRect>, client: ScreenPoint, scale: real): (p: Option<ImagePoint>)
    requires scale > 0.0
    ensures p.Some? <==> canvas.Some?
    ensures p.Some? ==> (p.value.x * scale + canvas.value.left == client.x
                      && p.value.y * scale + canvas.value.top == client.y)
  {
    match canvas
    case None => None
    case Some(rect) => Some(ImagePoint((client.x - rect.left) / scale, (client.y - rect.top) / scale))
  }

  /** `Math.min(1, containerWidth / img.width)`: large images are shrunk to
      fit the container, small ones are never enlarged. */
  function DisplayScale(containerWidth: real, imageWidth: real): (s: real)
    requires containerWidth > 0.0 && imageWidth > 0.0
    ensures 0.0 < s <= 1.0
    ensures s * imageWidth <= containerWidth
    ensures s == 1.0 <==> imageWidth <= containerWidth
    ensures s < 1.0 ==> s * imageWidth == containerWidth
  {
    var fit := containerWidth / imageWidth;
    assert fit * imageWidth == containerWidth;
    assert 1.0 <= fit <==> imageWidth <= containerWidth by {
      assert 1.0 * imageWidth == imageWidth;
    }
    if 1.0 <= fit then 1.0 else fit
  }

  /** The draft a drag from `start` to `current` produces: anchored at the
      press point, with an extent that reaches the current pointer. */
  function DragDraft(start: ImagePoint, current: ImagePoint, kind: Category): (d: Draft)
    ensures d.x == start.x && d.y == start.y && d.kind == kind
    ensures d.width.Some? && d.height.Some?
    ensures d.x + d.width.value == current.x && d.y + d.height.value == current.y
  {
    Draft(start.x, start.y, kind, Some(current.x - start.x), Some(current.y - start.y))
  }

  /** The rectangle `stopDrawing` commits for a draft: `None` when either
      extent is unset or zero, otherwise the drag with a negative extent
      moved into the origin. */
  function Normalize(d: Draft): (r: Option<Rect>)
    ensures r.None? <==> d.width.None? || d.height.None? || d.width.value == 0.0 || d.height.value == 0.0
    ensures r.Some? ==> r.value.width > 0.0 && r.value.height > 0.0
  {
    if d.width.None? || d.height.None? || d.width.value == 0.0 || d.height.value == 0.0 then None
    else
      var w, h := d.width.value, d.height.value;
      Some(Rect(if w < 0.0 then d.x + w else d.x,
                if h < 0.0 then d.y + h else d.y,
                if w < 0.0 then -w else w,
                if h < 0.0 then -h else h))
  }

  predicate Inside(r: Rect, p: ImagePoint) {
    r.x <= p.x <= r.x + r.width && r.y <= p.y <= r.y + r.height
  }

  /** The committed rectangle spans exactly the interval between the two
      corners of the drag, on both axes, so it covers the same points. */
  lemma NormalizeCoversDrag(d: Draft, p: ImagePoint)
    requires Normalize(d).Some?
    ensures var r := Normalize(d).value;
      && r.x == Min(d.x, d.x + d.width.value) && r.x + r.width == Max(d.x, d.x + d.width.value)
      && r.y == Min(d.y, d.y + d.height.value) && r.y + r.height == Max(d.y, d.y + d.height.value)
      && (Inside(r, p) <==>
            (Min(d.x, d.x + d.width.value) <= p.x <= Max(d.x, d.x + d.width.value)
             && Min(d.y, d.y + d.height.value) <= p.y <= Max(d.y, d.y + d.height.value)))
  {
  }

  /** Dragging from `a` to `b` commits the same rectangle as dragging from
      `b` to `a`, whatever category either drag carries. */
  lemma DragDirectionIrrelevant(a: ImagePoint, b: ImagePoint, k1: Category, k2: Category)
    ensures Normalize(DragDraft(a, b, k1)) == Normalize(DragDraft(b, a, k2))
  {
  }

  /** A screen-space drag, converted through one scale, reproduces the
      screen-space extent once scaled back. */
  lemma DragScaleRoundTrip(canvas: CanvasRect, s0: ScreenPoint, s1: ScreenPoint, scale: real, kind: Category)
    requires scale > 0.0
    ensures var p0 := GetCoordinates(Some(canvas), s0, scale).value;
      var p1 := GetCoordinates(Some(canvas), s1, scale).value;
      var d := DragDraft(p0, p1, kind);
      d.width.value * scale == s1.x - s0.x && d.height.value * scale == s1.y - s0.y
  {
    var p0 := GetCoordinates(Some(canvas), s0, scale).value;
    var p1 := GetCoordinates(Some(canvas), s1, scale).value;
    assert (p1.x - p0.x) * scale == p1.x * scale - p0.x * scale;
    assert (p1.y - p0.y) * scale == p1.y * scale - p0.y * scale;
  }

  /** The region a commit appends: the normalised rectangle, the category
      selected at release, no text yet, the clock reading as id and the crop. */
  function NewBox(r: Rect, kind: Category, stamp: string, imageUrl: string): (b: Box)
    ensures b.x == r.x && b.y == r.y && b.x + b.width == r.x + r.width && b.y + b.height == r.y + r.height
    ensures b.kind == kind && b.text == [] && b.id == stamp && b.imageUrl == imageUrl
  {
    Box(stamp, r.x, r.y, r.width, r.height, kind, [], imageUrl)
  }

  class Selector {
    var boxes: seq<Box>
    var drawing: bool
    var currentBox: Option<Draft>
    var selectedType: Category
    var isProcessing: bool
    var scale: real
    var imageLoaded: bool
    /** The natural width of the loaded image; meaningful once
        `imageLoaded` holds. */
    var imageWidth: real

    /** Between events: a draft exists exactly while drawing, no commit or
        extraction is in flight, and every committed region has a positive
        extent and no text. */
    ghost predicate Valid()
      reads this
    {
      && scale > 0.0
      && (imageLoaded ==> imageWidth > 0.0)
      && (drawing <==> currentBox.Some?)
      && !isProcessing
      && forall k :: 0 <= k < |boxes| ==> boxes[k].width > 0.0 && boxes[k].height > 0.0 && boxes[k].text == []
    }

    constructor ()
      ensures Valid()
      ensures boxes == [] && !drawing && currentBox == None && selectedType == Ingredient
      ensures !isProcessing && scale == 1.0 && !imageLoaded
    {
      boxes := [];
      drawing := false;
      currentBox := None;
      selectedType := Ingredient;
      isProcessing := false;
      scale := 1.0;
      imageLoaded := false;
      imageWidth := 0.0;
    }

    /** The image's `onload`: the image is available and the display scale
        fits it to the container. */
    method ImageLoaded(containerWidth: real, width: real)
      requires Valid() && containerWidth > 0.0 && width > 0.0
      modifies this`imageLoaded, this`imageWidth, this`scale
      ensures Valid() && imageLoaded && imageWidth == width
      ensures scale == DisplayScale(containerWidth, width)
    {
      imageLoaded := true;
      imageWidth := width;
      scale := DisplayScale(containerWidth, width);
    }

    /** The window's `resize` listener: once an image is loaded the scale is
        recomputed from the new container width and the loaded image's own
        width; before that nothing changes. */
    method Resize(containerWidth: real)
      requires Valid() && containerWidth > 0.0
      modifies this`scale
      ensures Valid()
      ensures scale == if imageLoaded then DisplayScale(containerWidth, imageWidth) else old(scale)
    {
      if imageLoaded {
        scale := DisplayScale(containerWidth, imageWidth);
      }
    }

    /** The tool buttons: choose the category of the next region. */
    method SelectType(kind: Category)
      requires Valid()
      modifies this`selectedType
      ensures Valid() && selectedType == kind
    {
      selectedType := kind;
    }

    /** "Clear All": forget every committed region. */
    method ClearAll()
      requires Valid()
      modifies this`boxes
      ensures Valid() && boxes == []
    {
      boxes := [];
    }

    /** Whether "Extract Text" is enabled. */
    method CanExtract() returns (enabled: bool)
      ensures enabled <==> |boxes| > 0 && !isProcessing
    {
      enabled := |boxes| != 0 && !isProcessing;
    }

    /** `startDrawing`: without a canvas nothing happens; otherwise drawing
        starts at the pointer's image-space position, tagged with the
        selected category, and with no extent yet. */
    method StartDrawing(canvas: Option<CanvasRect>, client: ScreenPoint)
      requires Valid()
      modifies this`drawing, this`currentBox
      ensures Valid()
      ensures var p := GetCoordinates(canvas, client, scale);
        if p.None? then drawing == old(drawing) && currentBox == old(currentBox)
        else drawing && currentBox == Some(Draft(p.value.x, p.value.y, selectedType, None, None))
    {
      var coords := GetCoordinates(canvas, client, scale);
      if coords.None? {
        return;
      }
      drawing := true;
      currentBox := Some(Draft(coords.value.x, coords.value.y, selectedType, None, None));
    }

    /** `draw`: a move while not drawing, or without a canvas, changes
        nothing; otherwise the extent becomes the pointer's image-space
        position minus the origin, and may be negative. */
    method Draw(canvas: Option<CanvasRect>, client: ScreenPoint)
      requires Valid()
      modifies this`currentBox
      ensures Valid()
      ensures var p := GetCoordinates(canvas, client, scale);
        if !drawing || p.None? then currentBox == old(currentBox)
        else currentBox == Some(DragDraft(ImagePoint(old(currentBox).value.x, old(currentBox).value.y),
                                          p.value, old(currentBox).value.kind))
    {
      if !drawing || currentBox.None? {
        return;
      }
      var coords := GetCoordinates(canvas, client, scale);
      if coords.None? {
        return;
      }
      var prev := currentBox.value;
      currentBox := Some(prev.(width := Some(coords.value.x - prev.x), height := Some(coords.value.y - prev.y)));
    }

    /** `stopDrawing`: on every path the gesture ends (`drawing` false, no
        draft, not processing). A region is appended only when the image is
        loaded, the draft has a non-zero extent on both axes and the crop
        could be encoded (`crop` is `None` when encoding throws); it is the
        normalised rectangle with the category selected at release. */
    method StopDrawing(stamp: string, crop: Option<string>)
      requires Valid()
      modifies this`boxes, this`drawing, this`currentBox, this`isProcessing
      ensures Valid()
      ensures !drawing && currentBox == None && !isProcessing
      ensures var committed := old(imageLoaded && currentBox.Some? && Normalize(currentBox.value).Some?) && crop.Some?;
        boxes == if committed
                 then old(boxes) + [NewBox(Normalize(old(currentBox).value).value, selectedType, stamp, crop.value)]
                 else old(boxes)
    {
      if currentBox.None? || currentBox.value.width.None? || currentBox.value.width.value == 0.0
        || currentBox.value.height.None? || currentBox.value.height.value == 0.0 || !imageLoaded
      {
        drawing := false;
        currentBox := None;
        return;
      }
      var x, y := currentBox.value.x, currentBox.value.y;
      var width, height := currentBox.value.width.value, currentBox.value.height.value;
      if width < 0.0 {
        x := x + width;
        width := -width;
      }
      if height < 0.0 {
        y := y + height;
        height := -height;
      }
      isProcessing := true;
      if crop.Some? {
        var newBox := Box(stamp, x, y, width, height, selectedType, [], crop.value);
        boxes := boxes + [newBox];
      }
      isProcessing := false;
      drawing := false;
      currentBox := None;
    }

    /** `handleComplete`: every region is recognized and processed, and the
        ordered ingredient and instruction lists are built. The committed
        regions themselves are left as they are, and the busy flag is clear
        again on every path. The engine is terminated only when every
        recognition succeeded. */
    method HandleComplete(recognize: Box -> Option<seq<string>>) returns (result: Option<Extraction>, workerTerminated: bool)
      requires Valid()
      modifies this`isProcessing
      ensures Valid()
      ensures result == Extract(boxes, recognize)
      ensures workerTerminated <==> result.Some?
    {
      isProcessing := true;
      var processed := ProcessBoxes(boxes, recognize);
      if processed.None? {
        isProcessing := false;
        return None, false;
      }
      workerTerminated := true;
      var ingredients := Collect(processed.value, Ingredient);
      var instructions := Collect(processed.value, Instruction);
      result := Some(Extraction(ingredients, instructions, processed.value));
      isProcessing := false;
    }
  }

  /** The category of a committed region is the one selected at release:
      press with "ingredient" selected, switch to "instruction", release,
      and the region is an instruction region. */
  method ReleaseCategoryScenario() returns (kind: Category, pressKind: Category)
    ensures pressKind == Ingredient && kind == Instruction
  {
    var s := new Selector();
    s.ImageLoaded(800.0, 400.0);
    var canvas := Some(CanvasRect(0.0, 0.0));
    s.StartDrawing(canvas, ScreenPoint(10.0, 10.0));
    pressKind := s.currentBox.value.kind;
    s.Draw(canvas, ScreenPoint(50.0, 40.0));
    s.SelectType(Instruction);
    s.StopDrawing("1", Some("crop"));
    assert |s.boxes| == 1;
    kind := s.boxes[0].kind;
  }

  /** A release at the press point commits nothing. */
  method ZeroExtentScenario() returns (count: nat)
    ensures count == 0
  {
    var s := new Selector();
    s.ImageLoaded(400.0, 800.0);
    var canvas := Some(CanvasRect(4.0, 8.0));
    s.StartDrawing(canvas, ScreenPoint(30.0, 30.0));
    s.Draw(canvas, ScreenPoint(30.0, 30.0));
    s.StopDrawing("1", Some("crop"));
    count := |s.boxes|;
  }
}
