/** The bird sprite editor of `chilly_bird/graph_editor.py`: a drag on the opened
    image selects a rectangle, drawn over a grey checkered background, and the
    selection is what the editor returns when its window is closed. */
module SpriteEditor {
  import opened Geometry
  import opened Common
  import opened Utils

  /** The two greys of the background: `Color(128, 128, 128)` and `Color(64, 64, 64)`. */
  datatype Grey = LightGrey | DarkGrey

  /** One `surface.fill(colour, rect)` call. */
  datatype Fill = Fill(colour: Grey, area: Rect)

  /** The tile size the editor draws its background with. */
  const BackgroundTile: nat := 10

  /** The colour of the tile whose top-left corner is (x, y): the light grey when
      the tile's column and row numbers add up to an even number. */
  function TileColour(x: nat, y: nat, t: nat): Grey
    requires t > 0
  {
    if (x / t + y / t) % 2 == 0 then LightGrey else DarkGrey
  }

  /** The fill of the tile at (x, y). */
  function Tile(x: nat, y: nat, t: nat): Fill
    requires t > 0
  {
    Fill(TileColour(x, y, t), Rect(x, y, t, t))
  }

  /** The fills of one row of tiles: `x` runs over `range(x, w, t)`. */
  function RowFills(x: nat, y: nat, w: nat, t: nat): seq<Fill>
    requires t > 0
    decreases w - x
  {
    if x >= w then [] else [Tile(x, y, t)] + RowFills(x + t, y, w, t)
  }

  /** The fills of the rows `range(y, h, t)`, one row after the other. */
  function GridFills(y: nat, w: nat, h: nat, t: nat): seq<Fill>
    requires t > 0
    decreases h - y
  {
    if y >= h then [] else RowFills(0, y, w, t) + GridFills(y + t, w, h, t)
  }

  /** A fill of the background: a square tile at a multiple of the tile size
      inside the surface, coloured by the parity of its column and row. */
  predicate IsTile(f: Fill, w: nat, h: nat, t: nat)
    requires t > 0
  {
    0 <= f.area.left < w && 0 <= f.area.top < h &&
    f.area.left % t == 0 && f.area.top % t == 0 &&
    f == Tile(f.area.left, f.area.top, t)
  }

  /** `create_checkered_background(tile_size)` on a `w` x `h` screen: the fills
      in the order the two nested loops make them. A step of 0 makes `range`
      raise, a negative one makes it empty. */
  method CheckeredBackground(w: nat, h: nat, tileSize: int) returns (r: Result<seq<Fill>>)
    ensures tileSize == 0 <==> r.Err?
    ensures r.Err? ==> r.error == ValueError("range() arg 3 must not be zero")
    ensures tileSize < 0 ==> r == Ok([])
    ensures tileSize > 0 ==> r == Ok(GridFills(0, w, h, tileSize))
  {
    if tileSize == 0 {
      return Err(ValueError("range() arg 3 must not be zero"));
    }
    if tileSize < 0 {
      return Ok([]);
    }
    var t: nat := tileSize;
    var fills: seq<Fill> := [];
    var y: nat := 0;
    assert fills + GridFills(0, w, h, t) == GridFills(0, w, h, t);
    while y < h
      invariant fills + GridFills(y, w, h, t) == GridFills(0, w, h, t)
      decreases h - y
    {
      var row: seq<Fill> := [];
      var x: nat := 0;
      assert row + RowFills(0, y, w, t) == RowFills(0, y, w, t);
      while x < w
        invariant row + RowFills(x, y, w, t) == RowFills(0, y, w, t)
        decreases w - x
      {
        assert RowFills(x, y, w, t) == [Tile(x, y, t)] + RowFills(x + t, y, w, t);
        row := row + [Tile(x, y, t)];
        x := x + t;
      }
      assert RowFills(x, y, w, t) == [];
      assert row == RowFills(0, y, w, t);
      assert GridFills(y, w, h, t) == row + GridFills(y + t, w, h, t);
      fills := fills + row;
      y := y + t;
    }
    assert GridFills(y, w, h, t) == [];
    assert fills == fills + GridFills(y, w, h, t);
    r := Ok(fills);
  }

  // The editor only ever draws its background with 10 px tiles, so the lemmas
  // about the finished pattern fix the tile size to `BackgroundTile`.

  /** Two multiples of the tile size are at least one tile apart. */
  lemma MultiplesApart(a: nat, b: nat)
    requires a % BackgroundTile == 0 && b % BackgroundTile == 0 && a < b
    ensures a + BackgroundTile <= b
  {
  }

  /** The fills of a row are exactly the tiles of that row at multiples of the
      tile size from `x` onwards. */
  lemma {:induction false} RowTiles(x: nat, y: nat, w: nat)
    requires x % BackgroundTile == 0
    ensures forall f :: f in RowFills(x, y, w, BackgroundTile) ==>
      f.area.top == y && x <= f.area.left < w && f.area.left % BackgroundTile == 0 &&
      f == Tile(f.area.left, y, BackgroundTile)
    ensures forall c: nat :: x <= c < w && c % BackgroundTile == 0 ==>
      Tile(c, y, BackgroundTile) in RowFills(x, y, w, BackgroundTile)
    decreases w - x
  {
    if x < w {
      RowTiles(x + BackgroundTile, y, w);
      forall c: nat | x <= c < w && c % BackgroundTile == 0
        ensures Tile(c, y, BackgroundTile) in RowFills(x, y, w, BackgroundTile)
      {
        if c != x {
          MultiplesApart(x, c);
        }
      }
    }
  }

  /** The fills of the rows from `y` onwards are exactly the tiles at multiples of
      the tile size in those rows. */
  lemma {:induction false} GridTiles(y: nat, w: nat, h: nat)
    requires y % BackgroundTile == 0
    ensures forall f :: f in GridFills(y, w, h, BackgroundTile) ==>
      y <= f.area.top && IsTile(f, w, h, BackgroundTile)
    ensures forall c: nat, d: nat :: c < w && y <= d < h && c % BackgroundTile == 0 && d % BackgroundTile == 0 ==>
      Tile(c, d, BackgroundTile) in GridFills(y, w, h, BackgroundTile)
    decreases h - y
  {
    if y < h {
      RowTiles(0, y, w);
      GridTiles(y + BackgroundTile, w, h);
      forall c: nat, d: nat | c < w && y <= d < h && c % BackgroundTile == 0 && d % BackgroundTile == 0
        ensures Tile(c, d, BackgroundTile) in GridFills(y, w, h, BackgroundTile)
      {
        if d != y {
          MultiplesApart(y, d);
        }
      }
    }
  }

  /** The background covers the surface tile by tile: every fill is a tile at a
      multiple of the tile size inside the surface, and every such tile is filled. */
  lemma BackgroundTiles(w: nat, h: nat)
    ensures forall f :: f in GridFills(0, w, h, BackgroundTile) ==> IsTile(f, w, h, BackgroundTile)
    ensures forall c: nat, d: nat :: c < w && d < h && c % BackgroundTile == 0 && d % BackgroundTile == 0 ==>
      Tile(c, d, BackgroundTile) in GridFills(0, w, h, BackgroundTile)
  {
    GridTiles(0, w, h);
  }

  /** Neighbouring tiles, side by side or one above the other, differ in colour. */
  lemma NeighboursDiffer(x: nat, y: nat)
    ensures TileColour(x + BackgroundTile, y, BackgroundTile) != TileColour(x, y, BackgroundTile)
    ensures TileColour(x, y + BackgroundTile, BackgroundTile) != TileColour(x, y, BackgroundTile)
  {
  }

  /** The sprite editor. `userImage` is what `open_image` delivered: None when
      no file was chosen, and then the window is never set up. */
  class SpriteEditor {
    var selectedRect: Option<Rect>
    var currStart: Point
    const userImage: Option<Surface>
    /** The checkered background, drawn only when an image was opened. */
    const background: Option<seq<Fill>>

    /** A selection, once made, came from an accepted drag. */
    predicate Valid()
      reads this`selectedRect
    {
      selectedRect.Some? ==> selectedRect.value.w >= 8 || selectedRect.value.h >= 8
    }

    /** `GraphEditor(max_screen_w, max_screen_h)` after `open_image` gave
        `opened`: the window takes the image's size and gets a background of
        10 px tiles. */
    constructor (chosen: Option<Surface>)
      ensures Valid() && selectedRect == None && currStart == Point(0, 0) && userImage == chosen
      ensures chosen.None? ==> background == None
      ensures chosen.Some? ==> background == Some(GridFills(0, chosen.value.w, chosen.value.h, BackgroundTile))
    {
      selectedRect := None;
      currStart := Point(0, 0);
      userImage := chosen;
      if chosen.None? {
        background := None;
      } else {
        var fills := CheckeredBackground(chosen.value.w, chosen.value.h, BackgroundTile);
        background := Some(fills.value);
      }
    }

    /** `start_selection`: the drag starts at `pos`. */
    method StartSelection(pos: Point)
      modifies this`currStart
      ensures currStart == pos
    {
      currStart := pos;
    }

    /** `new_selection`: a drag of at least 10 px selects the rectangle it spans;
        a shorter one keeps the previous selection. */
    method NewSelection(pos: Point)
      requires Valid()
      modifies this`selectedRect
      ensures Valid()
      ensures FarEnough(currStart, pos) ==> selectedRect == Some(CreateRect(currStart, pos))
      ensures !FarEnough(currStart, pos) ==> selectedRect == old(selectedRect)
    {
      if FarEnough(currStart, pos) {
        FarEnoughSpan(currStart, pos);
        selectedRect := Some(CreateRect(currStart, pos));
      }
    }

    /** `get_image_selected`: the selected part of the image, or None when there
        is no image or no selection with an area (a pygame `Rect` with no width
        or no height is false). */
    function ImageSelected(): (r: Option<Cutout>)
      reads this`selectedRect
      ensures r.Some? <==> userImage.Some? && selectedRect.Some? && selectedRect.value.Truthy()
      ensures r.Some? ==> r.value.source == userImage.value && r.value.area == selectedRect.value
    {
      if selectedRect.Some? && selectedRect.value.Truthy() && userImage.Some? then
        Some(Cutout(userImage.value, selectedRect.value))
      else
        None
    }

    /** `run`: None straight away when no image was opened; otherwise the events
        are handled in order until the window is closed, and the selection at that
        moment is returned. */
    method Run(inputs: seq<Input>) returns (r: RunResult)
      requires Valid()
      modifies this`currStart, this`selectedRect
      ensures Valid()
      ensures userImage.None? ==> r == Returned(None) && currStart == old(currStart) && selectedRect == old(selectedRect)
      ensures userImage.Some? ==>
        Replay(old(currStart), old(selectedRect), inputs) == (currStart, selectedRect, r.Returned?) &&
        (r.Returned? ==> r.image == ImageSelected())
    {
      if userImage.None? {
        return Returned(None);
      }
      var k := 0;
      while k < |inputs|
        invariant 0 <= k <= |inputs| && Valid()
        invariant Replay(old(currStart), old(selectedRect), inputs) == Replay(currStart, selectedRect, inputs[k..])
      {
        var input := inputs[k];
        match input.event {
          case Quit =>
            return Returned(ImageSelected());
          case MouseButtonDown(button) =>
            if button == 1 {
              StartSelection(input.mouse);
            }
          case MouseButtonUp(button) =>
            if button == 1 {
              NewSelection(input.mouse);
            }
          case _ =>
        }
        assert inputs[k..][1..] == inputs[k + 1..];
        k := k + 1;
      }
      r := Waiting;
    }
  }

  /** One event taken from the queue, with the mouse position read while it is
      handled. */
  datatype Input = Input(event: Event, mouse: Point)

  /** How the editor loop ends: it returns the selected image when the window is
      closed; without a close it is still waiting for events. */
  datatype RunResult = Returned(image: Option<Cutout>) | Waiting

  /** The editor loop over `inputs` from drag start `start` and selection `sel`:
      the start and selection it leaves, and whether it returned. A left press
      starts a drag, a left release ends it, and a close returns. */
  function Replay(start: Point, sel: Option<Rect>, inputs: seq<Input>): (Point, Option<Rect>, bool)
    decreases |inputs|
  {
    if |inputs| == 0 then (start, sel, false)
    else
      var input := inputs[0];
      match input.event
      case Quit => (start, sel, true)
      case MouseButtonDown(button) =>
        Replay(if button == 1 then input.mouse else start, sel, inputs[1..])
      case MouseButtonUp(button) =>
        var chosen := if button == 1 && FarEnough(start, input.mouse) then Some(CreateRect(start, input.mouse)) else sel;
        Replay(start, chosen, inputs[1..])
      case _ => Replay(start, sel, inputs[1..])
  }

  /** The loop returns exactly when a close event comes. */
  lemma {:induction false} ReplayReturns(start: Point, sel: Option<Rect>, inputs: seq<Input>)
    ensures Replay(start, sel, inputs).2 <==> exists k :: 0 <= k < |inputs| && inputs[k].event == Quit
    decreases |inputs|
  {
    if |inputs| > 0 && inputs[0].event != Quit {
      var input, next := inputs[0], inputs[1..];
      var start', sel' := start, sel;
      match input.event {
        case MouseButtonDown(button) =>
          start' := if button == 1 then input.mouse else start;
        case MouseButtonUp(button) =>
          sel' := if button == 1 && FarEnough(start, input.mouse) then Some(CreateRect(start, input.mouse)) else sel;
        case _ =>
      }
      assert Replay(start, sel, inputs) == Replay(start', sel', next);
      ReplayReturns(start', sel', next);
      if exists k :: 0 <= k < |inputs| && inputs[k].event == Quit {
        var k :| 0 <= k < |inputs| && inputs[k].event == Quit;
        assert next[k - 1].event == Quit;
      }
      if exists k :: 0 <= k < |next| && next[k].event == Quit {
        var k :| 0 <= k < |next| && next[k].event == Quit;
        assert inputs[k + 1].event == Quit;
      }
    }
  }

  /** Without a left release the selection stays what it was. */
  lemma {:induction false} ReplayWithoutRelease(start: Point, sel: Option<Rect>, inputs: seq<Input>)
    requires forall k :: 0 <= k < |inputs| ==> inputs[k].event != MouseButtonUp(1)
    ensures Replay(start, sel, inputs).1 == sel
    decreases |inputs|
  {
    if |inputs| > 0 && inputs[0].event != Quit {
      var start' := if inputs[0].event == MouseButtonDown(1) then inputs[0].mouse else start;
      assert Replay(start, sel, inputs) == Replay(start', sel, inputs[1..]);
      ReplayWithoutRelease(start', sel, inputs[1..]);
    }
  }
}
