/** The player sprite (`objects/bird.py`). Gravity is kept in hundredths of a
    pixel per frame so that 0.17, 2.6, -3.5 and 10 are exact. */
module BirdSprite {
  import opened Geometry
  import opened Common

  const RoadY: int := 384          // `road_y_pos`, the floor line
  const GravityStep: int := 17     // 0.17 px/frame added by every `fly`
  const MaxGravity: int := 260     // 2.6, the clamp in `fly`
  const JumpGravity: int := -350   // -3.5, the impulse of a jump
  const FallGravity: int := 1000   // 10, forced while the bird is invisible
  const AnimSpdLimit: int := 5     // `anim_spd_limit`
  const FrameCount: int := 3       // the configuration holds exactly three animation frames

  type Frames = s: seq<Surface> | |s| == FrameCount
    witness [Surface(0, 0, 0), Surface(0, 0, 0), Surface(0, 0, 0)]
  type FrameIndex = k: int | 0 <= k < FrameCount
  type AnimTick = k: int | 0 <= k <= AnimSpdLimit

  /** Every field of a `Bird` that its methods read or write. */
  datatype BirdState = BirdState(
    images: Frames,
    i: FrameIndex,
    animSpd: AnimTick,
    rect: Rect,
    gravity: int,
    clicked: bool,
    flying: bool,
    visible: bool)

  /** `Bird.fly`: gravity grows by 0.17 up to 2.6, and the bird sinks by the whole
      pixels of it (`int`, truncating) while its bottom edge is above the floor line. */
  function Flown(s: BirdState): BirdState
  {
    var g := if s.gravity + GravityStep < MaxGravity then s.gravity + GravityStep else MaxGravity;
    s.(gravity := g, rect := if s.rect.Bottom() < RoadY then s.rect.Moved(0, TruncDiv(g, 100)) else s.rect)
  }

  /** The jump part of `Bird.update` (run while flying and visible): a press that
      is not already `clicked` sets the upward impulse; a release re-arms it. */
  function Jump(s: BirdState, held: bool): BirdState
  {
    var s1 := if held && !s.clicked then s.(clicked := true, gravity := JumpGravity) else s;
    if !held then s1.(clicked := false) else s1
  }

  /** The flapping counters of `Bird.update`: `anim_spd` counts to 5, and on the
      next update the frame index moves on, wrapping at the number of frames. */
  function Animate(s: BirdState): BirdState
  {
    if s.animSpd + 1 > AnimSpdLimit then
      s.(animSpd := 0, i := if s.i + 1 >= FrameCount then 0 else s.i + 1)
    else
      s.(animSpd := s.animSpd + 1)
  }

  /** One `Bird.update` with the left mouse button held or not. */
  function Step(s: BirdState, held: bool): BirdState
  {
    var s1 := if s.flying then Flown(s) else s;
    if s1.visible then Animate(if s1.flying then Jump(s1, held) else s1)
    else s1.(gravity := FallGravity)
  }

  /** The state `__init__` builds and `reset` restores for a given skin. */
  function Initial(initialPos: Point, images: Frames): BirdState
  {
    BirdState(images, 0, 0, CenteredAt(initialPos, images[0].w, images[0].h), 0, false, false, true)
  }

  /** `Bird.reset`: everything but the skin goes back to its initial value. */
  function Restored(s: BirdState, initialPos: Point): BirdState
  {
    s.(i := 0, animSpd := 0, rect := CenteredAt(initialPos, s.images[0].w, s.images[0].h),
       gravity := 0, clicked := false, flying := false, visible := true)
  }

  /** `Step` applied once per element of `held`, first element first. */
  function Steps(s: BirdState, held: seq<bool>): BirdState
    decreases |held|
  {
    if |held| == 0 then s else Steps(Step(s, held[0]), held[1..])
  }

  class Bird {
    const initialPos: Point
    const initialImages: Frames
    var images: Frames
    var i: FrameIndex
    var animSpd: AnimTick
    var rect: Rect
    var gravity: int
    var clicked: bool
    var flying: bool
    var visible: bool

    function State(): BirdState
      reads this
    {
      BirdState(images, i, animSpd, rect, gravity, clicked, flying, visible)
    }

    /** `Bird(initial_pos, cfg)`: the frames come from the configuration. */
    constructor (initialPos: Point, frames: Frames)
      ensures this.initialPos == initialPos && initialImages == frames
      ensures State() == Initial(initialPos, frames)
    {
      this.initialPos := initialPos;
      initialImages := frames;
      images := frames;
      i := 0;
      animSpd := 0;
      rect := CenteredAt(initialPos, frames[0].w, frames[0].h);
      gravity := 0;
      clicked := false;
      flying := false;
      visible := true;
    }

    /** `Bird.position`: centre the current frame on `pos`, or on the initial position.
        The source centres the displayed image; its only caller, `Reset`, has just
        set that image to `images[0]` and `i` to 0, so the two agree there. */
    method Position(pos: Option<Point>)
      modifies this`rect
      ensures rect == CenteredAt(if pos.Some? then pos.value else initialPos, images[i].w, images[i].h)
    {
      var p := if pos.Some? then pos.value else initialPos;
      rect := CenteredAt(p, images[i].w, images[i].h);
    }

    method Reset()
      modifies this
      ensures State() == Restored(old(State()), initialPos)
    {
      i := 0;
      animSpd := 0;
      Position(Some(initialPos));
      gravity := 0;
      clicked := false;
      flying := false;
      visible := true;
    }

    method Fly()
      modifies this
      ensures State() == Flown(old(State()))
    {
      gravity := gravity + GravityStep;
      if gravity > MaxGravity {
        gravity := MaxGravity;
      }
      if rect.Bottom() < RoadY {
        rect := rect.Moved(0, TruncDiv(gravity, 100));
      }
    }

    /** `Bird.update`; the rotation of the drawn frame is rendering and is not modelled. */
    method Update(held: bool)
      modifies this
      ensures State() == Step(old(State()), held)
    {
      if flying {
        Fly();
      }
      if visible {
        if flying {
          if held && !clicked {
            clicked := true;
            gravity := JumpGravity;
          }
          if !held {
            clicked := false;
          }
        }
        if animSpd + 1 > AnimSpdLimit {
          animSpd := 0;
          i := if i + 1 >= FrameCount then 0 else i + 1;
        } else {
          animSpd := animSpd + 1;
        }
      } else {
        gravity := FallGravity;
      }
    }

    /** `Bird.redress`: back to the configured skin. */
    method Redress()
      modifies this`images
      ensures images == initialImages
    {
      images := initialImages;
    }
  }

  // ----- Properties of one update -----

  /** `fly` clamps gravity at 2.6 and moves the bird only above the floor line,
      by the truncated gravity. */
  lemma FlyClampsAndSinks(s: BirdState)
    ensures Flown(s).gravity <= MaxGravity
    ensures Flown(s).gravity == (if s.gravity + GravityStep < MaxGravity then s.gravity + GravityStep else MaxGravity)
    ensures s.rect.Bottom() >= RoadY ==> Flown(s).rect == s.rect
    ensures s.rect.Bottom() < RoadY ==>
      Flown(s).rect == s.rect.(top := s.rect.top + TruncDiv(Flown(s).gravity, 100))
  {
  }

  /** While flying and visible, gravity never exceeds 2.6 after an update. */
  lemma FlyingGravityBounded(s: BirdState, held: bool)
    requires s.flying && s.visible
    ensures Step(s, held).gravity <= MaxGravity
    ensures Step(s, held).flying && Step(s, held).visible
  {
  }

  /** The jump is edge-triggered: a fresh press sets the impulse and `clicked`; a
      held press only falls; a release clears `clicked`. */
  lemma JumpIsEdgeTriggered(s: BirdState, held: bool)
    requires s.flying && s.visible
    ensures held && !s.clicked ==> Step(s, held).gravity == JumpGravity && Step(s, held).clicked
    ensures held && s.clicked ==> Step(s, held).gravity == Flown(s).gravity && Step(s, held).clicked
    ensures !held ==> !Step(s, held).clicked && Step(s, held).gravity == Flown(s).gravity
  {
  }

  /** A visible bird that is not flying keeps its gravity, position and `clicked` flag. */
  lemma RestingBirdStays(s: BirdState, held: bool)
    requires !s.flying && s.visible
    ensures Step(s, held).gravity == s.gravity
    ensures Step(s, held).rect == s.rect
    ensures Step(s, held).clicked == s.clicked
  {
  }

  /** An invisible bird always ends an update with gravity 10, and its frame is frozen. */
  lemma InvisibleBirdFalls(s: BirdState, held: bool)
    requires !s.visible
    ensures Step(s, held).gravity == FallGravity
    ensures Step(s, held).i == s.i && Step(s, held).animSpd == s.animSpd
    ensures !Step(s, held).visible
  {
  }

  /** An update never changes the flags `flying` and `visible`, nor the skin. */
  lemma StepKeepsFlags(s: BirdState, held: bool)
    ensures Step(s, held).flying == s.flying && Step(s, held).visible == s.visible
    ensures Step(s, held).images == s.images
  {
  }

  /** Over any run of updates of a visible bird, `anim_spd` counts updates modulo 6
      and the frame index advances once per 6 updates, modulo the number of frames. */
  lemma {:induction false} AnimationCadence(s: BirdState, held: seq<bool>)
    requires s.visible
    ensures Steps(s, held).visible
    ensures Steps(s, held).animSpd == (s.animSpd + |held|) % 6
    ensures Steps(s, held).i == (s.i + (s.animSpd + |held|) / 6) % FrameCount
    decreases |held|
  {
    if |held| > 0 {
      var t := Step(s, held[0]);
      var a: int, n: nat := s.animSpd, |held| - 1;
      VisibleStepTicks(s, held[0]);
      var rest := held[1..];
      AnimationCadence(t, rest);
      var r := Steps(t, rest);
      assert Steps(s, held) == r && |rest| == n;
      // Fold the two carries: (a + 1) then n more ticks equals a + n + 1 ticks.
      CarryFold(s.i, a, n);
      assert r.animSpd == ((a + 1) % 6 + n) % 6 == (a + n + 1) % 6;
      assert r.i == ((s.i + (a + 1) / 6) % FrameCount + ((a + 1) % 6 + n) / 6) % FrameCount;
    }
  }

  /** One update of a visible bird advances the counters by one tick. */
  lemma VisibleStepTicks(s: BirdState, held: bool)
    requires s.visible
    ensures Step(s, held).visible
    ensures Step(s, held).animSpd == (s.animSpd + 1) % 6
    ensures Step(s, held).i == (s.i + (s.animSpd + 1) / 6) % FrameCount
  {
    if s.animSpd == AnimSpdLimit {
      assert (s.animSpd + 1) % 6 == 0 && (s.animSpd + 1) / 6 == 1;
    } else {
      assert (s.animSpd + 1) % 6 == s.animSpd + 1 && (s.animSpd + 1) / 6 == 0;
    }
  }

  lemma CarryFold(i: int, a: int, n: nat)
    requires 0 <= i < FrameCount && 0 <= a <= AnimSpdLimit
    ensures ((a + 1) % 6 + n) % 6 == (a + n + 1) % 6
    ensures ((i + (a + 1) / 6) % FrameCount + ((a + 1) % 6 + n) / 6) % FrameCount
         == (i + (a + n + 1) / 6) % FrameCount
  {
    if a == 5 {
      assert (a + 1) % 6 == 0 && (a + 1) / 6 == 1;
      assert (a + n + 1) / 6 == 1 + n / 6;
    } else {
      assert (a + 1) % 6 == a + 1 && (a + 1) / 6 == 0;
    }
  }

  /** From a fresh counter, six updates of a visible bird show the next frame. */
  lemma SixUpdatesNextFrame(s: BirdState, held: seq<bool>)
    requires s.visible && s.animSpd == 0 && |held| == 6
    ensures Steps(s, held).i == (s.i + 1) % FrameCount && Steps(s, held).animSpd == 0
  {
    AnimationCadence(s, held);
  }

  // ----- Reset -----

  /** `reset` restores exactly the state the constructor built (with the current
      skin), so it is idempotent. */
  lemma ResetIsInitial(s: BirdState, initialPos: Point)
    ensures Restored(s, initialPos) == Initial(initialPos, s.images)
    ensures Restored(Restored(s, initialPos), initialPos) == Restored(s, initialPos)
  {
  }
}
