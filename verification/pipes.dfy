/** Scrolling obstacles (`objects/pipes.py`) and the group that holds them. */
module PipeSprite {
  import opened Geometry
  import opened Common

  const Div: int := 10      // `div`: half the bob period
  const BobStep: int := 1   // `step`: pixels of bob per update

  /** Which way the pipe points. */
  datatype Direction = Up | Down

  /** The `match direction` of `Pipe.__init__`: only "up" and "down" are accepted. */
  function ParseDirection(direction: string): (r: Result<Direction>)
    ensures r == Ok(Up) <==> direction == "up"
    ensures r == Ok(Down) <==> direction == "down"
    ensures r.Err? <==> direction != "up" && direction != "down"
    ensures r.Err? ==> r.error.ValueError?
  {
    if direction == "up" then Ok(Up)
    else if direction == "down" then Ok(Down)
    else Err(ValueError("`direction` must be either 'up' or 'down'"))
  }

  /** Where `Pipe.__init__` puts the pipe image: an "up" pipe has its top-left
      corner at (x, round(y + gap/2)), a "down" pipe its bottom-left corner at
      (x, round(y - gap/2)); Python's `round` sends halves to the even neighbour. */
  function Placement(pos: Point, direction: Direction, gap: int, image: Surface): (r: Rect)
    ensures r.left == pos.x && r.w == image.w && r.h == image.h
    ensures direction == Up ==> -1 <= 2 * r.top - (2 * pos.y + gap) <= 1
    ensures direction == Down ==> -1 <= 2 * r.Bottom() - (2 * pos.y - gap) <= 1
  {
    match direction
    case Up => Rect(pos.x, RoundHalf(2 * pos.y + gap), image.w, image.h)
    case Down => Rect(pos.x, RoundHalf(2 * pos.y - gap) - image.h, image.w, image.h)
  }

  /** The two pipes of a pair placed at the same anchor share their left edge, and
      for an even gap the opening between them is exactly the gap. */
  lemma PairOpening(pos: Point, gap: int, image: Surface)
    requires gap % 2 == 0
    ensures var up := Placement(pos, Up, gap, image);
      var down := Placement(pos, Down, gap, image);
      up.left == down.left && up.top - down.Bottom() == gap
  {
  }

  /** Every field of a `Pipe` that `update` reads or writes. */
  datatype PipeState = PipeState(rect: Rect, scrollSpeed: int, counter: int)

  /** One `Pipe.update(scroll_speed=...)`: a supplied speed is adopted first; a
      pipe at speed 0 stays where it is; otherwise it moves left by its speed and
      bobs one pixel, up while the counter is non-negative (the counter jumps from
      10 down to -9) and down while it is negative. */
  function PipeStep(s: PipeState, newSpeed: Option<int>): PipeState
  {
    var speed := if newSpeed.Some? then newSpeed.value else s.scrollSpeed;
    if speed == 0 then s.(scrollSpeed := speed)
    else
      var moved := s.rect.Moved(-speed, 0);
      if s.counter >= 0 then
        var c := if s.counter >= Div then s.counter - 2 * Div else s.counter;
        PipeState(moved.Moved(0, -BobStep), speed, c + BobStep)
      else
        PipeState(moved.Moved(0, BobStep), speed, s.counter + BobStep)
  }

  /** `kill()` is called, after the move, exactly when a moving pipe's right edge
      has passed x = 0. */
  predicate Dead(t: PipeState)
  {
    t.scrollSpeed != 0 && t.rect.Right() < 0
  }

  /** Whether an update kills the pipe. */
  predicate Killed(s: PipeState, newSpeed: Option<int>)
  {
    Dead(PipeStep(s, newSpeed))
  }

  /** The pipe at the start of the bob cycle. */
  predicate CounterInRange(c: int) { -Div + 1 <= c <= Div }

  class Pipe {
    var rect: Rect
    const pipeGap: int
    var scrollSpeed: int
    var counter: int

    function State(): PipeState
      reads this
    {
      PipeState(rect, scrollSpeed, counter)
    }

    /** `Pipe(pos, direction, pipe_gap, scroll_speed, cfg)` for a valid direction. */
    constructor (pos: Point, direction: Direction, pipeGap: int, scrollSpeed: int, image: Surface)
      ensures State() == PipeState(Placement(pos, direction, pipeGap, image), scrollSpeed, 0)
      ensures this.pipeGap == pipeGap
    {
      rect := Placement(pos, direction, pipeGap, image);
      this.pipeGap := pipeGap;
      this.scrollSpeed := scrollSpeed;
      counter := 0;
    }

    /** `Pipe.update`; returns whether the pipe killed itself. */
    method Update(newSpeed: Option<int>) returns (killed: bool)
      modifies this
      ensures State() == PipeStep(old(State()), newSpeed)
      ensures killed == Dead(State())
    {
      killed := false;
      if newSpeed.Some? {
        scrollSpeed := newSpeed.value;
      }
      if scrollSpeed == 0 {
        return;
      }
      rect := rect.Moved(-scrollSpeed, 0);
      if counter >= 0 {
        rect := rect.Moved(0, -BobStep);
        if counter >= Div {
          counter := counter - 2 * Div;
        }
      } else {
        rect := rect.Moved(0, BobStep);
      }
      counter := counter + BobStep;
      if rect.Right() < 0 {
        killed := true;
      }
    }
  }

  /** `Pipe(...)` with the direction given as text: any other text raises `ValueError`. */
  method NewPipe(pos: Point, direction: string, pipeGap: int, scrollSpeed: int, image: Surface)
    returns (r: Result<Pipe>)
    ensures r.Err? <==> ParseDirection(direction).Err?
    ensures r.Err? ==> r.error.ValueError?
    ensures r.Ok? ==> fresh(r.value)
    ensures r.Ok? ==>
      r.value.State() == PipeState(Placement(pos, ParseDirection(direction).value, pipeGap, image), scrollSpeed, 0)
  {
    var d := ParseDirection(direction);
    if d.Err? {
      return Err(d.error);
    }
    var p := new Pipe(pos, d.value, pipeGap, scrollSpeed, image);
    return Ok(p);
  }

  // ----- Properties of `Pipe.update` -----

  /** A speed passed to `update` is adopted before any movement, and at speed 0
      nothing else changes and the pipe is not killed. */
  lemma FrozenPipeStays(s: PipeState, newSpeed: Option<int>)
    requires (if newSpeed.Some? then newSpeed.value else s.scrollSpeed) == 0
    ensures PipeStep(s, newSpeed) == s.(scrollSpeed := 0)
    ensures !Killed(s, newSpeed)
  {
  }

  /** A moving pipe goes left by exactly its speed and one pixel up or down, and
      the counter stays within [-9, 10]. */
  lemma MovingPipeStep(s: PipeState, newSpeed: Option<int>)
    requires CounterInRange(s.counter)
    requires (if newSpeed.Some? then newSpeed.value else s.scrollSpeed) != 0
    ensures var t := PipeStep(s, newSpeed);
      t.rect.left == s.rect.left - t.scrollSpeed &&
      (t.rect.top == s.rect.top - 1 || t.rect.top == s.rect.top + 1) &&
      t.rect.w == s.rect.w && t.rect.h == s.rect.h &&
      CounterInRange(t.counter)
    ensures Killed(s, newSpeed) <==> PipeStep(s, newSpeed).rect.Right() < 0
  {
  }

  /** `n` updates without a speed override. */
  function PipeSteps(s: PipeState, n: nat): PipeState
    decreases n
  {
    if n == 0 then s else PipeSteps(PipeStep(s, None), n - 1)
  }

  /** The bob is a sawtooth: a moving pipe whose counter is at `c` moves up while
      the counter climbs to 10, then down for 9 updates; so from counter 0 it rises
      11 times, sinks 9 times, and after 20 updates it is back at counter 0,
      2 pixels higher, and `20 * speed` pixels further left. */
  lemma {:induction false} BobPeriod(s: PipeState)
    requires s.counter == 0 && s.scrollSpeed != 0
    ensures PipeSteps(s, 11).rect.top == s.rect.top - 11
    ensures PipeSteps(s, 11).counter == -9
    ensures PipeSteps(s, 20).rect.top == s.rect.top - 2
    ensures PipeSteps(s, 20).counter == 0
    ensures PipeSteps(s, 20).rect.left == s.rect.left - 20 * s.scrollSpeed
  {
    RisingPhase(s, 11);
    var mid := PipeSteps(s, 11);
    SinkingPhase(mid, 9);
    StepsCompose(s, 11, 9);
  }

  /** While the counter runs from 0 up to 10 the pipe rises one pixel per update. */
  lemma {:induction false} RisingPhase(s: PipeState, n: nat)
    requires s.scrollSpeed != 0 && 0 <= s.counter <= Div && s.counter + n <= Div + 1
    ensures PipeSteps(s, n).scrollSpeed == s.scrollSpeed
    ensures PipeSteps(s, n).rect.top == s.rect.top - n
    ensures PipeSteps(s, n).rect.left == s.rect.left - n * s.scrollSpeed
    ensures PipeSteps(s, n).counter == if s.counter + n == Div + 1 then -Div + 1 else s.counter + n
    decreases n
  {
    if n > 0 {
      var t := PipeStep(s, None);
      assert t.scrollSpeed == s.scrollSpeed && t.rect.top == s.rect.top - 1;
      assert t.rect.left == s.rect.left - s.scrollSpeed;
      assert PipeSteps(s, n) == PipeSteps(t, n - 1);
      if s.counter == Div {
        assert n == 1 && t.counter == -Div + 1;
      } else {
        assert t.counter == s.counter + 1;
        RisingPhase(t, n - 1);
        assert (n - 1) * s.scrollSpeed + s.scrollSpeed == n * s.scrollSpeed;
      }
    }
  }

  /** While the counter is negative the pipe sinks one pixel per update. */
  lemma {:induction false} SinkingPhase(s: PipeState, n: nat)
    requires s.scrollSpeed != 0 && s.counter < 0 && s.counter + n <= 0
    ensures PipeSteps(s, n).scrollSpeed == s.scrollSpeed
    ensures PipeSteps(s, n).rect.top == s.rect.top + n
    ensures PipeSteps(s, n).rect.left == s.rect.left - n * s.scrollSpeed
    ensures PipeSteps(s, n).counter == s.counter + n
    decreases n
  {
    if n > 0 {
      var t := PipeStep(s, None);
      assert t.scrollSpeed == s.scrollSpeed && t.rect.top == s.rect.top + 1;
      assert t.rect.left == s.rect.left - s.scrollSpeed && t.counter == s.counter + 1;
      assert PipeSteps(s, n) == PipeSteps(t, n - 1);
      if t.counter < 0 {
        SinkingPhase(t, n - 1);
        assert (n - 1) * s.scrollSpeed + s.scrollSpeed == n * s.scrollSpeed;
      } else {
        assert n == 1;
      }
    }
  }

  lemma {:induction false} StepsCompose(s: PipeState, m: nat, n: nat)
    ensures PipeSteps(s, m + n) == PipeSteps(PipeSteps(s, m), n)
    decreases m
  {
    if m > 0 {
      StepsCompose(PipeStep(s, None), m - 1, n);
    }
  }

  /** A pipe group: pygame's ordered set of sprites, so it never holds a pipe twice. */
  type DistinctPipes = s: seq<Pipe> | forall i, j :: 0 <= i < j < |s| ==> s[i] != s[j]

  /** The pipes of `ps` as a set of objects (a frame). */
  function PipeObjects(ps: seq<Pipe>): (r: set<object>)
    ensures forall k :: 0 <= k < |ps| ==> ps[k] in r
    ensures forall o :: o in r ==> o is Pipe
  {
    set p | p in ps
  }

  /** The current state of each pipe of `ps`. */
  function States(ps: seq<Pipe>): (r: seq<PipeState>)
    reads PipeObjects(ps)
    ensures |r| == |ps| && forall k {:trigger r[k]} :: 0 <= k < |ps| ==> r[k] == ps[k].State()
    decreases |ps|
  {
    if |ps| == 0 then [] else States(ps[..|ps| - 1]) + [ps[|ps| - 1].State()]
  }

  /** One update of every pipe state. */
  function StepAll(sts: seq<PipeState>, newSpeed: Option<int>): (r: seq<PipeState>)
    ensures |r| == |sts| && forall k {:trigger r[k]} :: 0 <= k < |sts| ==> r[k] == PipeStep(sts[k], newSpeed)
    decreases |sts|
  {
    if |sts| == 0 then [] else StepAll(sts[..|sts| - 1], newSpeed) + [PipeStep(sts[|sts| - 1], newSpeed)]
  }

  /** The pipes of `ps`, whose states after the update are `after`, that are not
      killed, in their order. */
  function Kept(ps: seq<Pipe>, after: seq<PipeState>): (r: seq<Pipe>)
    requires |ps| == |after|
    ensures |r| <= |ps|
    decreases |ps|
  {
    if |ps| == 0 then []
    else
      var n := |ps| - 1;
      var rest := Kept(ps[..n], after[..n]);
      if Dead(after[n]) then rest else rest + [ps[n]]
  }

  /** The survivors of a group are pipes of the group, and a group without
      duplicates has survivors without duplicates. */
  lemma {:induction false} KeptDistinct(ps: DistinctPipes, after: seq<PipeState>)
    requires |ps| == |after|
    ensures forall p :: p in Kept(ps, after) ==> p in ps
    ensures forall i, j :: 0 <= i < j < |Kept(ps, after)| ==> Kept(ps, after)[i] != Kept(ps, after)[j]
    decreases |ps|
  {
    if |ps| > 0 {
      var n := |ps| - 1;
      var front: DistinctPipes := ps[..n];
      KeptDistinct(front, after[..n]);
      var rest := Kept(front, after[..n]);
      assert ps[n] !in front;
      if !Dead(after[n]) {
        var r := rest + [ps[n]];
        assert Kept(ps, after) == r;
        forall i, j | 0 <= i < j < |r|
          ensures r[i] != r[j]
        {
          if j == |rest| {
            assert rest[i] in front;
          }
        }
      }
    }
  }

  /** One more pipe: the survivors grow by that pipe unless it is killed. */
  lemma KeptSnoc(ps: seq<Pipe>, after: seq<PipeState>, k: nat)
    requires |ps| == |after| && k < |ps|
    ensures Kept(ps[..k + 1], after[..k + 1]) ==
      Kept(ps[..k], after[..k]) + (if Dead(after[k]) then [] else [ps[k]])
  {
    assert ps[..k + 1][..k] == ps[..k];
    assert after[..k + 1][..k] == after[..k];
  }

  /** Pipes none of which is killed all survive, in their order. */
  lemma {:induction false} NoneDeadKeepsAll(ps: seq<Pipe>, after: seq<PipeState>)
    requires |ps| == |after|
    requires forall k :: 0 <= k < |after| ==> !Dead(after[k])
    ensures Kept(ps, after) == ps
    decreases |ps|
  {
    if |ps| > 0 {
      var n := |ps| - 1;
      NoneDeadKeepsAll(ps[..n], after[..n]);
      assert ps[..n] + [ps[n]] == ps;
    }
  }

  /** `update(scroll_speed=0)` on a whole group: every pipe keeps its place and
      bob phase with speed 0, and every pipe stays in the group. */
  lemma FreezeAll(ps: seq<Pipe>, sts: seq<PipeState>)
    requires |ps| == |sts|
    ensures forall k :: 0 <= k < |sts| ==> StepAll(sts, Some(0))[k] == sts[k].(scrollSpeed := 0)
    ensures Kept(ps, StepAll(sts, Some(0))) == ps
  {
    var after := StepAll(sts, Some(0));
    forall k | 0 <= k < |sts|
      ensures after[k] == sts[k].(scrollSpeed := 0) && !Dead(after[k])
    {
      FrozenPipeStays(sts[k], Some(0));
    }
    NoneDeadKeepsAll(ps, after);
  }

  lemma StatesStepped(ps: seq<Pipe>, sts: seq<PipeState>, newSpeed: Option<int>)
    requires SteppedUpTo(ps, sts, StepAll(sts, newSpeed), |ps|)
    ensures States(ps) == StepAll(sts, newSpeed)
  {
  }

  /** The pipes before position `k` have taken their step, the others not yet. */
  ghost predicate SteppedUpTo(ps: seq<Pipe>, sts: seq<PipeState>, stepped: seq<PipeState>, k: nat)
    reads PipeObjects(ps)
  {
    |sts| == |ps| && |stepped| == |ps| && k <= |ps| &&
    forall j :: 0 <= j < |ps| ==> ps[j].State() == if j < k then stepped[j] else sts[j]
  }

  /** One pipe's `update` inside the group's update. */
  method StepOne(ps: DistinctPipes, k: nat, ghost sts: seq<PipeState>, ghost stepped: seq<PipeState>,
                 newSpeed: Option<int>) returns (killed: bool)
    requires k < |ps| && SteppedUpTo(ps, sts, stepped, k) && stepped == StepAll(sts, newSpeed)
    modifies ps[k]
    ensures SteppedUpTo(ps, sts, stepped, k + 1)
    ensures killed == Dead(stepped[k])
  {
    killed := ps[k].Update(newSpeed);
  }

  /** Every pipe of `ps` updated once, in order; returns the pipes that did not
      kill themselves. */
  method UpdateAll(ps: DistinctPipes, newSpeed: Option<int>) returns (kept: seq<Pipe>)
    modifies PipeObjects(ps)
    ensures States(ps) == StepAll(old(States(ps)), newSpeed)
    ensures kept == Kept(ps, States(ps))
  {
    ghost var sts := States(ps);
    ghost var stepped := StepAll(sts, newSpeed);
    var survivors := [];
    for k := 0 to |ps|
      invariant SteppedUpTo(ps, sts, stepped, k)
      invariant survivors == Kept(ps[..k], stepped[..k])
    {
      var killed := StepOne(ps, k, sts, stepped, newSpeed);
      KeptSnoc(ps, stepped, k);
      if !killed {
        survivors := survivors + [ps[k]];
      }
    }
    assert ps[..|ps|] == ps;
    assert stepped[..|ps|] == stepped;
    StatesStepped(ps, sts, newSpeed);
    kept := survivors;
  }

  class PipeGroup {
    var pipes: DistinctPipes

    constructor ()
      ensures pipes == []
    {
      pipes := [];
    }

    /** `Group.empty()`. */
    method Empty()
      modifies this
      ensures pipes == []
    {
      pipes := [];
    }

    /** `Group.add(*sprites)`: pipes not yet in the group are appended in order. */
    method Add(ps: seq<Pipe>)
      modifies this
      ensures |old(pipes)| <= |pipes| && pipes[..|old(pipes)|] == old(pipes)
      ensures forall p :: p in pipes <==> p in old(pipes) || p in ps
      ensures ((forall p :: p in ps ==> p !in old(pipes)) &&
               (forall i, j :: 0 <= i < j < |ps| ==> ps[i] != ps[j])) ==> pipes == old(pipes) + ps
    {
      for k := 0 to |ps|
        invariant |old(pipes)| <= |pipes| && pipes[..|old(pipes)|] == old(pipes)
        invariant forall p :: p in pipes <==> p in old(pipes) || p in ps[..k]
        invariant ((forall p :: p in ps ==> p !in old(pipes)) &&
                   (forall i, j :: 0 <= i < j < |ps| ==> ps[i] != ps[j])) ==> pipes == old(pipes) + ps[..k]
      {
        if ps[k] !in pipes {
          pipes := pipes + [ps[k]];
        }
        assert ps[..k + 1] == ps[..k] + [ps[k]];
      }
      assert ps[..|ps|] == ps;
    }

    /** `Group.update(scroll_speed=...)`: every pipe is updated once, in group order,
        and the pipes that killed themselves leave the group. */
    method Update(newSpeed: Option<int>)
      modifies this, PipeObjects(pipes)
      ensures States(old(pipes)) == StepAll(old(States(pipes)), newSpeed)
      ensures pipes == Kept(old(pipes), States(old(pipes)))
    {
      var ps := pipes;
      var kept := UpdateAll(ps, newSpeed);
      assert forall i, j :: 0 <= i < j < |kept| ==> kept[i] != kept[j] by {
        KeptDistinct(ps, States(ps));
      }
      pipes := kept;
    }
  }
}
