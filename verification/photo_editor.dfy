/** The earlier sprite editor of `chilly_bird/photoeditor.py`. Unlike the one in
    `graph_editor.py` it has no drag start until the first press, and it cannot
    be built without an image. Its `create_rect` and `scale_keep_ratio` are the
    ones of the `Utils` module, copied line for line. */
module PhotoEditor {
  import opened Geometry
  import opened Common
  import opened Utils

  class PhotoEditor {
    var selectedRect: Option<Rect>
    /** None until `start_selection` is first called. */
    var currStart: Option<Point>
    const backImage: Surface

    constructor (image: Surface)
      ensures selectedRect == None && currStart == None && backImage == image
    {
      selectedRect := None;
      currStart := None;
      backImage := image;
    }

    /** `start_selection`: the drag starts at `pos`. */
    method StartSelection(pos: Point)
      modifies this`currStart
      ensures currStart == Some(pos)
    {
      currStart := Some(pos);
    }

    /** `new_selection`: before any press `Vector2(None)` raises `ValueError` and
        nothing changes; otherwise a drag of at least 10 px selects the rectangle
        it spans and a shorter one keeps the previous selection. */
    method NewSelection(pos: Point) returns (r: Outcome)
      modifies this`selectedRect
      ensures currStart.None? <==> r.Fail?
      ensures r.Fail? ==> r.error == ValueError(VectorOfNone) && selectedRect == old(selectedRect)
      ensures r.Pass? && FarEnough(currStart.value, pos) ==> selectedRect == Some(CreateRect(currStart.value, pos))
      ensures r.Pass? && !FarEnough(currStart.value, pos) ==> selectedRect == old(selectedRect)
    {
      if currStart.None? {
        return Fail(ValueError(VectorOfNone));
      }
      if FarEnough(currStart.value, pos) {
        selectedRect := Some(CreateRect(currStart.value, pos));
      }
      r := Pass;
    }

    /** `get_image_selected`: None unless there is a selection with an area. */
    function ImageSelected(): (r: Option<Cutout>)
      reads this`selectedRect
      ensures r.Some? <==> selectedRect.Some? && selectedRect.value.Truthy()
      ensures r.Some? ==> r.value == Cutout(backImage, selectedRect.value)
    {
      if selectedRect.Some? && selectedRect.value.Truthy() then Some(Cutout(backImage, selectedRect.value)) else None
    }
  }

  /** `GraphEditor(...)` once `open_image` has run: with no file chosen it got
      None, and `None.get_rect()` raises `AttributeError`. */
  method NewPhotoEditor(chosen: Option<Surface>) returns (r: Result<PhotoEditor>)
    ensures chosen.None? <==> r.Err?
    ensures r.Err? ==> r.error.AttributeError?
    ensures r.Ok? ==> fresh(r.value) && r.value.backImage == chosen.value
    ensures r.Ok? ==> r.value.selectedRect == None && r.value.currStart == None
  {
    if chosen.None? {
      return Err(AttributeError("'NoneType' object has no attribute 'get_rect'"));
    }
    var editor := new PhotoEditor(chosen.value);
    r := Ok(editor);
  }

  /** A selection only ever comes from an accepted drag: from a fresh editor,
      `new_selection` right after `start_selection(a)` selects `CreateRect(a, b)`
      exactly when the drag to `b` is at least 10 px long. */
  method SelectOnce(image: Surface, a: Point, b: Point) returns (picked: Option<Cutout>)
    ensures FarEnough(a, b) && CreateRect(a, b).Truthy() ==> picked == Some(Cutout(image, CreateRect(a, b)))
    ensures !FarEnough(a, b) || !CreateRect(a, b).Truthy() ==> picked == None
  {
    var editor := new PhotoEditor(image);
    editor.StartSelection(a);
    var r := editor.NewSelection(b);
    picked := editor.ImageSelected();
  }
}
