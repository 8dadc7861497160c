/** The Flying scene (`states/flying.py`): scoring by pipe identity, collision and
    floor death, the spawning of pipe pairs and the road scroll. */
module FlyingScene {
  import opened Geometry
  import opened Common
  import opened BirdSprite
  import opened PipeSprite
  import opened Widgets
  import opened SceneBase
  import opened Settings

  const ScrollSpeed: int := 2       // `scroll_speed`, px per frame
  const PipeFreq: int := 1250       // `pipe_freq`, ms between two pairs
  const GapBtwPipes: int := 100     // `gap_btw_pipes`, px between the two pipes of a pair
  const MaxRoadScroll: int := 17    // `max_scroll_speed`
  const FloorLevel: int := 384      // `floor_level`

  // ----- inc_score -----

  /** `inc_score` once the first pipe of the group is known: the score goes up
      when that pipe is not the one credited last and the bird's left edge is past
      its right edge; the pipe is then the one credited. */
  function Credit(score: nat, passed: Option<Pipe>, first: Pipe, firstRight: int, birdLeft: int): (r: (nat, Option<Pipe>))
    ensures r.0 == score || r.0 == score + 1
    ensures r.0 == score + 1 <==> passed != Some(first) && birdLeft > firstRight
    ensures r.1 == if r.0 == score then passed else Some(first)
  {
    if passed != Some(first) && birdLeft > firstRight then (score + 1, Some(first)) else (score, passed)
  }

  /** A pipe is credited once: a second call with the same first pipe adds nothing. */
  lemma CreditOnce(score: nat, passed: Option<Pipe>, first: Pipe, firstRight: int, birdLeft: int)
    ensures var (s1, p1) := Credit(score, passed, first, firstRight, birdLeft);
      s1 > score ==> Credit(s1, p1, first, firstRight, birdLeft) == (s1, p1)
  {
  }

  // ----- handle_collision -----

  /** Whether `handle_collision` ends the game: the bird overlaps a pipe, is above
      the screen, or its bottom edge reached the floor. */
  predicate Ends(s: BirdState, hit: bool)
  {
    hit || s.rect.top < 0 || s.rect.Bottom() >= FloorLevel
  }

  /** `handle_collision` on the bird: a hit or the top of the screen hides it, the
      floor also stops its flight. */
  function Collided(s: BirdState, hit: bool): BirdState
  {
    var s1 := if hit || s.rect.top < 0 then s.(visible := false) else s;
    if s.rect.Bottom() >= FloorLevel then s1.(flying := false, visible := false) else s1
  }

  /** A collision only clears the two flags: it hides the bird exactly when the
      game ends, stops it exactly on the floor, and touches nothing else. */
  lemma CollisionRules(s: BirdState, hit: bool)
    ensures Ends(s, hit) ==> !Collided(s, hit).visible
    ensures !Ends(s, hit) ==> Collided(s, hit) == s
    ensures Collided(s, hit).flying == (s.flying && s.rect.Bottom() < FloorLevel)
    ensures Collided(s, hit).visible ==> s.visible
    ensures Collided(s, hit) == s.(flying := Collided(s, hit).flying, visible := Collided(s, hit).visible)
  {
  }

  /** `spritecollideany(bird, pipes)`: whether the rect overlaps some pipe's. */
  predicate HitsAny(r: Rect, sts: seq<PipeState>)
  {
    exists k :: 0 <= k < |sts| && Collide(r, sts[k].rect)
  }

  // ----- generate_pipes -----

  /** The scroll of the road after one step: it moves by the scroll speed and
      starts over at 0 once it is more than 17 px away. */
  function ScrollStep(roadScroll: int): (r: int)
    ensures -MaxRoadScroll <= roadScroll <= 0 ==> -MaxRoadScroll <= r <= 0
    ensures r == 0 || r == roadScroll - ScrollSpeed
  {
    var r := roadScroll - ScrollSpeed;
    if Abs(r) > MaxRoadScroll then 0 else r
  }

  function ScrollSteps(roadScroll: int, n: nat): int
    decreases n
  {
    if n == 0 then roadScroll else ScrollSteps(ScrollStep(roadScroll), n - 1)
  }

  /** From 0 the road moves 2 px per step for 8 steps and wraps on the 9th. */
  lemma {:induction false} ScrollPeriod(n: nat)
    requires n <= 8
    ensures ScrollSteps(0, n) == -ScrollSpeed * n
    ensures ScrollSteps(0, 9) == 0
  {
    ScrollPrefix(0, n);
    ScrollPrefix(0, 8);
    assert ScrollSteps(0, 9) == ScrollSteps(ScrollStep(0), 8);
    ScrollShift(0, 8);
  }

  lemma {:induction false} ScrollPrefix(start: nat, n: nat)
    requires start + n <= 8
    ensures ScrollSteps(-ScrollSpeed * start, n) == -ScrollSpeed * (start + n)
    decreases n
  {
    if n > 0 {
      assert ScrollStep(-ScrollSpeed * start) == -ScrollSpeed * (start + 1);
      ScrollPrefix(start + 1, n - 1);
    }
  }

  /** One step then `n` steps is `n` steps then one step. */
  lemma {:induction false} ScrollShift(r: int, n: nat)
    ensures ScrollSteps(ScrollStep(r), n) == ScrollStep(ScrollSteps(r, n))
    decreases n
  {
    if n > 0 {
      ScrollShift(ScrollStep(r), n - 1);
    }
  }

  /** The y coordinate a new pair is centred on: `round(h / 2 + d)`. */
  function PairY(d: int): (y: int)
    ensures y == ScreenH / 2 + d
  {
    RoundHalf(ScreenH + 2 * d)
  }

  /** The states of a new pair: "down" then "up", at the right edge of the screen. */
  function SpawnStates(d: int, image: Surface): seq<PipeState>
  {
    [PipeState(Placement(Point(ScreenW, PairY(d)), Down, GapBtwPipes, image), ScrollSpeed, 0),
     PipeState(Placement(Point(ScreenW, PairY(d)), Up, GapBtwPipes, image), ScrollSpeed, 0)]
  }

  /** The two pipes of a pair share their left edge at the right of the screen and
      leave an opening of exactly the gap, centred within 50 px of mid-screen. */
  lemma SpawnedPair(d: int, image: Surface)
    requires -50 <= d <= 50
    ensures var sts := SpawnStates(d, image);
      sts[0].rect.left == sts[1].rect.left == ScreenW &&
      sts[1].rect.top - sts[0].rect.Bottom() == GapBtwPipes &&
      ScreenH / 2 - 50 - GapBtwPipes / 2 <= sts[0].rect.Bottom() &&
      sts[1].rect.top <= ScreenH / 2 + 50 + GapBtwPipes / 2
  {
    PairOpening(Point(ScreenW, PairY(d)), GapBtwPipes, image);
  }

  /** `generate_pipes` spawns a pair when the game is on, the bird flies, and
      strictly more than `pipe_freq` ms have passed since the last pair. */
  predicate Spawns(gameIsOver: bool, birdFlying: bool, now: int, leftmost: int)
  {
    !gameIsOver && birdFlying && now - leftmost > PipeFreq
  }

  /** The dict of the Flying scene: its own pipes and score under their names, and
      at most a bird and a road besides. */
  ghost predicate FlyingGroups(m: GroupMap, pipes: PipeGroup, score: TextSprite)
  {
    Kinded(m) &&
    (forall k :: 0 <= k < |m| ==> m[k].name in ["pipes", "score", "bird", "road"]) &&
    Entry("pipes", PipesGroup(pipes)) in m &&
    Entry("score", ScoreGroup(score)) in m
  }

  /** Taking a bird and a road from a kinded handoff keeps the dict in shape. */
  lemma EnterKeepsShape(m: GroupMap, pipes: PipeGroup, score: TextSprite, bird: Bird, handoff: GroupMap)
    requires FlyingGroups(m, pipes, score) && Kinded(handoff) && Lookup(handoff, "road").Ok?
    ensures FlyingGroups(Assign(Assign(m, "bird", BirdGroup(bird)), "road", Lookup(handoff, "road").value),
                         pipes, score)
  {
    var road := Lookup(handoff, "road").value;
    var m1 := Assign(m, "bird", BirdGroup(bird));
    AssignKinded(m, "bird", BirdGroup(bird));
    assert road.Kind() == KindOfName("road") by {
      var k := IndexOf(handoff, "road");
      assert handoff[k].name == "road";
    }
    AssignKinded(m1, "road", road);
    var m2 := Assign(m1, "road", road);
    forall k | 0 <= k < |m1|
      ensures m1[k].name in ["pipes", "score", "bird", "road"]
    {
      if k < |m| { assert m1[k].name == m[k].name; }
    }
    forall k | 0 <= k < |m2|
      ensures m2[k].name in ["pipes", "score", "bird", "road"]
    {
      if k < |m1| { assert m2[k].name == m1[k].name; }
    }
    KeptEntry(m, "bird", BirdGroup(bird), Entry("pipes", PipesGroup(pipes)));
    KeptEntry(m, "bird", BirdGroup(bird), Entry("score", ScoreGroup(score)));
    KeptEntry(m1, "road", road, Entry("pipes", PipesGroup(pipes)));
    KeptEntry(m1, "road", road, Entry("score", ScoreGroup(score)));
  }

  /** In the Flying dict the default update finds the scene's own pipes, no
      buttons, and the bird under "bird". */
  lemma FlyingFinds(m: GroupMap, pipes: PipeGroup, score: TextSprite)
    requires FlyingGroups(m, pipes, score)
    ensures PipesOf(m) == Some(pipes) && ButtonsOf(m) == []
    ensures MutableIn(m) == BirdSet(m) + {pipes} + PipeObjects(pipes.pipes)
  {
    FlyingPipesOf(m, pipes, score);
  }

  /** A new scene's dict holds its pipe group and no bird. */
  lemma FreshFlyingGroups(pipes: PipeGroup, score: TextSprite)
    ensures var m := [Entry("pipes", PipesGroup(pipes)), Entry("score", ScoreGroup(score))];
      BirdOf(m) == None && PipesOf(m) == Some(pipes)
  {
    var m := [Entry("pipes", PipesGroup(pipes)), Entry("score", ScoreGroup(score))];
    assert Names(m) == ["pipes", "score"];
    LookupFinds(m, 0);
  }

  /** The scene's own pipe group is the one its dict holds. */
  lemma FlyingPipesOf(m: GroupMap, pipes: PipeGroup, score: TextSprite)
    requires FlyingGroups(m, pipes, score)
    ensures PipesOf(m) == Some(pipes) && ButtonsOf(m) == []
  {
    var k :| 0 <= k < |m| && m[k] == Entry("pipes", PipesGroup(pipes));
    LookupFinds(m, k);
    KindedPipes(m);
    KindedAbsent(m, 5);
  }

  /** The states of two runs of pipes are the states of each run. */
  lemma StatesAppend(a: seq<Pipe>, b: seq<Pipe>)
    ensures States(a + b) == States(a) + States(b)
  {
    assert forall k :: 0 <= k < |a + b| ==> States(a + b)[k] == (States(a) + States(b))[k];
  }

  /** The scalar state of the Flying scene, its score text and its bird: what one
      frame of `Flying.update` reads and writes besides the pipes. */
  datatype View = View(
    score: nat,
    passed: Option<Pipe>,
    gameIsOver: bool,
    done: bool,
    leftmost: int,
    roadScroll: int,
    text: (Option<string>, string),
    bird: BirdState)

  /** Whether the frame from `v`, with the pipes in states `sts`, adds a pair. */
  predicate SpawnsIn(v: View, sts: seq<PipeState>, host: Host)
  {
    var hit := HitsAny(v.bird.rect, sts);
    Spawns(v.gameIsOver || Ends(v.bird, hit), Collided(v.bird, hit).flying, host.ticks, v.leftmost)
  }

  /** The rules of one frame, before the groups' own update: `inc_score` against
      the first pipe `ps[0]` (in state `sts[0]`), the score text, `handle_collision`
      and `generate_pipes`. */
  function Rules(v: View, ps: seq<Pipe>, sts: seq<PipeState>, host: Host): View
    requires |ps| == |sts|
  {
    var credited := if |ps| == 0 then (v.score, v.passed)
      else Credit(v.score, v.passed, ps[0], sts[0].rect.Right(), v.bird.rect.left);
    var hit := HitsAny(v.bird.rect, sts);
    var s1 := Collided(v.bird, hit);
    var over := v.gameIsOver || Ends(v.bird, hit);
    View(credited.0, credited.1, over, v.done || Ends(v.bird, hit),
         if SpawnsIn(v, sts, host) then host.ticks else v.leftmost,
         if !over && s1.flying then ScrollStep(v.roadScroll) else v.roadScroll,
         TextStep(v.text.0, v.text.1, Some(NatToString(credited.0))),
         s1)
  }

  /** One whole frame: the rules, then the bird's own update. */
  function Frame(v: View, ps: seq<Pipe>, sts: seq<PipeState>, host: Host): View
    requires |ps| == |sts|
  {
    var v1 := Rules(v, ps, sts, host);
    v1.(bird := Step(v1.bird, host.leftHeld))
  }

  /** What one frame promises about the scene's own fields: the score goes up by
      at most one, and by one exactly when the first pipe is passed and not
      credited yet; game over and `done` are never cleared; once the game is over
      no pair is spawned and the road stands still; and the road scroll stays
      within [-17, 0]. */
  lemma FrameRules(v: View, ps: seq<Pipe>, sts: seq<PipeState>, host: Host)
    requires |ps| == |sts|
    ensures var r := Frame(v, ps, sts, host);
      (r.score == v.score || r.score == v.score + 1) &&
      (r.score == v.score + 1 <==>
        |ps| > 0 && v.passed != Some(ps[0]) && v.bird.rect.left > sts[0].rect.Right())
    ensures var r := Frame(v, ps, sts, host);
      (v.gameIsOver ==> r.gameIsOver) && (v.done ==> r.done) &&
      (r.done == (v.done || Ends(v.bird, HitsAny(v.bird.rect, sts))))
    ensures var r := Frame(v, ps, sts, host);
      v.gameIsOver ==> r.leftmost == v.leftmost && r.roadScroll == v.roadScroll
    ensures var r := Frame(v, ps, sts, host);
      -MaxRoadScroll <= v.roadScroll <= 0 ==> -MaxRoadScroll <= r.roadScroll <= 0
  {
  }

  /** The dict after `on_enter` and how it ends: the handoff's bird and road
      join the dict, or `KeyError` names the first of the two that is missing and
      the dict stays as it was. */
  function EnterRound(m: GroupMap, handoff: GroupMap): (GroupMap, Outcome)
    requires UniqueNames(m)
  {
    if BirdOf(handoff).None? then (m, Fail(KeyError("bird")))
    else match Lookup(handoff, "road")
      case Err(_) => (m, Fail(KeyError("road")))
      case Ok(road) => (Assign(Assign(m, "bird", BirdGroup(BirdOf(handoff).value)), "road", road), Pass)
  }

  class Flying {
    var done: bool
    const nextState: Option<string>
    var groups: GroupMap
    /** The group under "pipes", created with the scene and never replaced. */
    const pipes: PipeGroup
    /** The text sprite under "score". */
    const scoreText: TextSprite
    const pipeImage: Surface
    var score: nat
    var gameIsOver: bool
    var roadScroll: int
    var leftmostPipe: int
    var passedLeftmostPipe: Option<Pipe>

    /** The dict holds the scene's own pipes and score under their names, and at
        most a bird and a road besides. */
    ghost predicate Valid()
      reads this`groups
    {
      FlyingGroups(groups, pipes, scoreText)
    }

    /** The scene's scalar state with the score text and the bird `b`. */
    function ViewWith(b: Bird): View
      reads this, scoreText, b
    {
      View(score, passedLeftmostPipe, gameIsOver, done, leftmostPipe, roadScroll,
           (scoreText.previousText, scoreText.currentText), b.State())
    }

    /** `Flying(cfg, next_state)` at tick `ticks`: the first pair may come at once. */
    constructor (cfg: Config, nextState: Option<string>, ticks: int)
      ensures Valid()
      ensures !done && this.nextState == nextState
      ensures fresh(pipes) && fresh(scoreText) && pipes.pipes == []
      ensures groups == [Entry("pipes", PipesGroup(pipes)), Entry("score", ScoreGroup(scoreText))]
      ensures scoreText.previousText == None && scoreText.currentText == "0"
      ensures score == 0 && !gameIsOver && roadScroll == 0
      ensures leftmostPipe == ticks - PipeFreq && passedLeftmostPipe == None
      ensures pipeImage == cfg.pipeImage
    {
      done := false;
      this.nextState := nextState;
      score := 0;
      gameIsOver := false;
      roadScroll := 0;
      leftmostPipe := ticks - PipeFreq;
      passedLeftmostPipe := None;
      pipeImage := cfg.pipeImage;
      var pg := new PipeGroup();
      var text := new TextSprite(NatToString(0));
      pipes := pg;
      scoreText := text;
      groups := [Entry("pipes", PipesGroup(pg)), Entry("score", ScoreGroup(text))];
      new;
      assert Names(groups) == ["pipes", "score"];
    }

    /** `on_enter`: a new round. The counters are reset and the pipes removed, the
        bird of the handoff starts flying, and the handoff's bird and road join the
        dict. A missing "bird" or "road" raises `KeyError`, after the effects
        before it. */
    method OnEnter(handoff: GroupMap) returns (r: Outcome)
      requires Valid() && Kinded(handoff)
      modifies this`score, this`gameIsOver, this`roadScroll, this`groups, pipes, BirdSet(handoff)
      ensures Valid()
      ensures score == 0 && !gameIsOver && roadScroll == 0 && pipes.pipes == []
      ensures BirdOf(handoff).None? ==> r == Fail(KeyError("bird")) && groups == old(groups)
      ensures BirdOf(handoff).Some? ==>
        BirdOf(handoff).value.State() == old(BirdOf(handoff).value.State()).(flying := true)
      ensures BirdOf(handoff).Some? ==> var road := Lookup(handoff, "road");
        (road.Err? ==> r == Fail(KeyError("road")) && groups == old(groups)) &&
        (road.Ok? ==>
           r == Pass &&
           groups == Assign(Assign(old(groups), "bird", BirdGroup(BirdOf(handoff).value)), "road", road.value))
    {
      Restart();
      var bird := Launch(handoff);
      if bird.Err? {
        return Fail(bird.error);
      }
      r := JoinRound(handoff, bird.value);
    }

    /** `on_enter` takes the bird of the handoff and sets it flying, or raises
        `KeyError` when there is none. */
    static method Launch(handoff: GroupMap) returns (bird: Result<Bird>)
      modifies BirdSet(handoff)
      ensures bird.Ok? <==> BirdOf(handoff).Some?
      ensures bird.Err? ==> bird.error == KeyError("bird")
      ensures bird.Ok? ==> bird.value == BirdOf(handoff).value
      ensures bird.Ok? ==> bird.value.State() == old(bird.value.State()).(flying := true)
    {
      bird := BirdNamed(handoff);
      if bird.Ok? {
        bird.value.flying := true;
      }
    }

    /** The first lines of `on_enter`: the counters start over and the pipes go. */
    method Restart()
      modifies this`score, this`gameIsOver, this`roadScroll, pipes
      ensures score == 0 && !gameIsOver && roadScroll == 0 && pipes.pipes == []
    {
      score := 0;
      gameIsOver := false;
      roadScroll := 0;
      pipes.Empty();
    }

    /** The rest of `on_enter` once the bird flies: the bird and the road of the
        handoff join the dict, and the (empty) pipes are updated at the scroll
        speed. A missing "road" raises `KeyError`. */
    method JoinRound(handoff: GroupMap, bird: Bird) returns (r: Outcome)
      requires Valid() && Kinded(handoff) && pipes.pipes == []
      modifies this`groups, pipes
      ensures Valid() && pipes.pipes == []
      ensures var road := Lookup(handoff, "road");
        (road.Err? ==> r == Fail(KeyError("road")) && groups == old(groups)) &&
        (road.Ok? ==> r == Pass && groups == Assign(Assign(old(groups), "bird", BirdGroup(bird)), "road", road.value))
    {
      var road := Lookup(handoff, "road");
      if road.Err? {
        return Fail(road.error);
      }
      EnterKeepsShape(groups, pipes, scoreText, bird, handoff);
      groups := Assign(Assign(groups, "bird", BirdGroup(bird)), "road", road.value);
      pipes.Update(Some(ScrollSpeed));
      r := Pass;
    }

    /** `on_exit`: the scene's own dict, the same group objects. */
    method OnExit() returns (handoff: GroupMap)
      ensures handoff == groups
    {
      handoff := groups;
    }

    /** `Flying.update`: the score first, then the score text, the collision test,
        the spawning, and last every group's update. Scoring and collision see the
        pipes where the previous frame left them; `spawned` names the new pipes. */
    method Update(host: Host) returns (r: Outcome, posted: seq<Event>, ghost spawned: seq<Pipe>)
      requires Valid()
      modifies this, scoreText, BirdSet(groups), pipes, PipeObjects(pipes.pipes)
      ensures Valid() && groups == old(groups)
      ensures BirdOf(groups).None? ==> r == Fail(KeyError("bird"))
      ensures BirdOf(groups).Some? ==>
        var b := BirdOf(groups).value;
        var ps0 := old(pipes.pipes);
        var sts0 := old(States(pipes.pipes));
        var ps1 := ps0 + spawned;
        var spawn := SpawnsIn(old(ViewWith(b)), sts0, host);
        r == Pass && posted == [] &&
        ViewWith(b) == Frame(old(ViewWith(b)), ps0, sts0, host) &&
        |spawned| == (if spawn then 2 else 0) && (forall p :: p in spawned ==> fresh(p)) &&
        States(ps1) == StepAll(sts0 + (if spawn then SpawnStates(host.pipeOffset, pipeImage) else []), None) &&
        pipes.pipes == Kept(ps1, States(ps1))
    {
      posted := [];
      ghost var ps0, sts0 := pipes.pipes, States(pipes.pipes);
      ghost var b := BirdOf(groups);
      ghost var v0 := if b.Some? then ViewWith(b.value) else View(0, None, false, false, 0, 0, (None, ""), Initial(Point(0, 0), [Surface(0, 0, 0), Surface(0, 0, 0), Surface(0, 0, 0)]));
      r, spawned := ApplyRules(host);
      if r.Fail? {
        return;
      }
      ghost var v1 := ViewWith(b.value);
      assert v1 == Rules(v0, ps0, sts0, host);
      ghost var ps1 := pipes.pipes;
      StatesAppend(ps0, spawned);
      assert States(ps1) == sts0 + States(spawned);
      posted := GroupsStep(host);
      assert ViewWith(b.value) == v1.(bird := Step(v1.bird, host.leftHeld));
    }

    /** The groups' own update in this scene: the bird and the pipes step, and
        nothing is posted since the scene has no buttons. */
    method GroupsStep(host: Host) returns (posted: seq<Event>)
      requires FlyingGroups(groups, pipes, scoreText)
      modifies BirdSet(groups), pipes, PipeObjects(pipes.pipes)
      ensures BirdOf(groups).Some? ==>
        BirdOf(groups).value.State() == Step(old(BirdOf(groups).value.State()), host.leftHeld)
      ensures States(old(pipes.pipes)) == StepAll(old(States(pipes.pipes)), None)
      ensures pipes.pipes == Kept(old(pipes.pipes), States(old(pipes.pipes)))
      ensures posted == []
      ensures unchanged(this, scoreText)
    {
      FlyingFinds(groups, pipes, scoreText);
      KindedOnePerKind(groups);
      posted := UpdateGroups(groups, host);
    }

    /** What `Flying.update` does before the groups' update: score, score text,
        collision and spawning, in that order. */
    method ApplyRules(host: Host) returns (r: Outcome, ghost spawned: seq<Pipe>)
      modifies this`score, this`passedLeftmostPipe, this`gameIsOver, this`done, this`leftmostPipe,
        this`roadScroll, scoreText, BirdSet(groups), pipes
      ensures BirdOf(groups).None? ==> r == Fail(KeyError("bird"))
      ensures BirdOf(groups).Some? ==>
        var b := BirdOf(groups).value;
        var ps0 := old(pipes.pipes);
        var sts0 := old(States(pipes.pipes));
        var spawn := SpawnsIn(old(ViewWith(b)), sts0, host);
        r == Pass && States(ps0) == sts0 &&
        ViewWith(b) == Rules(old(ViewWith(b)), ps0, sts0, host) &&
        |spawned| == (if spawn then 2 else 0) && (forall p :: p in spawned ==> fresh(p)) &&
        pipes.pipes == ps0 + spawned &&
        (spawn ==> States(spawned) == SpawnStates(host.pipeOffset, pipeImage))
    {
      spawned := [];
      ghost var ps0, sts0 := pipes.pipes, States(pipes.pipes);
      r := Scoring();
      if r.Fail? {
        return;
      }
      assert States(ps0) == sts0;
      r, spawned := Hazards(host);
    }

    /** `inc_score`, then the score text shows the score. */
    method Scoring() returns (r: Outcome)
      modifies this`score, this`passedLeftmostPipe, scoreText
      ensures BirdOf(groups).None? && |pipes.pipes| > 0 ==> r == Fail(KeyError("bird"))
      ensures BirdOf(groups).Some? || |pipes.pipes| == 0 ==>
        var ps0 := pipes.pipes;
        var credited := if |ps0| == 0 then (old(score), old(passedLeftmostPipe))
          else Credit(old(score), old(passedLeftmostPipe), ps0[0], ps0[0].rect.Right(), BirdOf(groups).value.rect.left);
        r == Pass &&
        (score, passedLeftmostPipe) == credited &&
        (scoreText.previousText, scoreText.currentText) ==
          TextStep(old(scoreText.previousText), old(scoreText.currentText), Some(NatToString(credited.0)))
    {
      r := IncScore();
      if r.Fail? {
        return;
      }
      scoreText.Update(Some(NatToString(score)));
    }

    /** `handle_collision`, then `generate_pipes`. */
    method Hazards(host: Host) returns (r: Outcome, ghost spawned: seq<Pipe>)
      modifies this`gameIsOver, this`done, this`leftmostPipe, this`roadScroll, BirdSet(groups), pipes
      ensures BirdOf(groups).None? ==> r == Fail(KeyError("bird"))
      ensures BirdOf(groups).Some? ==>
        var b := BirdOf(groups).value;
        var s0 := old(b.State());
        var ps0 := old(pipes.pipes);
        var sts0 := old(States(pipes.pipes));
        var hit := HitsAny(s0.rect, sts0);
        var s1 := Collided(s0, hit);
        var over := old(gameIsOver) || Ends(s0, hit);
        var spawn := Spawns(over, s1.flying, host.ticks, old(leftmostPipe));
        r == Pass &&
        gameIsOver == over && done == (old(done) || Ends(s0, hit)) &&
        leftmostPipe == (if spawn then host.ticks else old(leftmostPipe)) &&
        roadScroll == (if !over && s1.flying then ScrollStep(old(roadScroll)) else old(roadScroll)) &&
        b.State() == s1 && States(ps0) == sts0 &&
        |spawned| == (if spawn then 2 else 0) && (forall p :: p in spawned ==> fresh(p)) &&
        pipes.pipes == ps0 + spawned &&
        (spawn ==> States(spawned) == SpawnStates(host.pipeOffset, pipeImage))
    {
      spawned := [];
      ghost var ps0, sts0 := pipes.pipes, States(pipes.pipes);
      r := HandleCollision();
      if r.Fail? {
        return;
      }
      assert States(ps0) == sts0;
      r, spawned := GeneratePipes(host);
      assert States(ps0) == sts0;
    }

    /** `inc_score`: nothing without pipes; otherwise the first pipe in group order
        is credited once the bird is past it. */
    method IncScore() returns (r: Outcome)
      modifies this`score, this`passedLeftmostPipe
      ensures |pipes.pipes| == 0 ==> r == Pass && score == old(score) && passedLeftmostPipe == old(passedLeftmostPipe)
      ensures |pipes.pipes| > 0 && BirdOf(groups).None? ==>
        r == Fail(KeyError("bird")) && score == old(score) && passedLeftmostPipe == old(passedLeftmostPipe)
      ensures |pipes.pipes| > 0 && BirdOf(groups).Some? ==>
        r == Pass &&
        (score, passedLeftmostPipe) == Credit(old(score), old(passedLeftmostPipe), pipes.pipes[0],
                                              pipes.pipes[0].rect.Right(), BirdOf(groups).value.rect.left)
    {
      if |pipes.pipes| > 0 {
        var current := pipes.pipes[0];
        var bird := BirdNamed(groups);
        if bird.Err? {
          return Fail(bird.error);
        }
        if Some(current) != passedLeftmostPipe && bird.value.rect.left > current.rect.Right() {
          passedLeftmostPipe := Some(current);
          score := score + 1;
        }
      }
      r := Pass;
    }

    /** `handle_collision`: a hit, the top of the screen or the floor ends the game
        and hides the bird; the floor also stops its flight. Nothing is ever cleared. */
    method HandleCollision() returns (r: Outcome)
      modifies this`gameIsOver, this`done, BirdSet(groups)
      ensures BirdOf(groups).None? ==> r == Fail(KeyError("bird")) && gameIsOver == old(gameIsOver) && done == old(done)
      ensures BirdOf(groups).Some? ==>
        var s := old(BirdOf(groups).value.State());
        var hit := HitsAny(s.rect, States(pipes.pipes));
        r == Pass && BirdOf(groups).value.State() == Collided(s, hit) &&
        gameIsOver == (old(gameIsOver) || Ends(s, hit)) && done == (old(done) || Ends(s, hit))
    {
      var found := BirdNamed(groups);
      if found.Err? {
        return Fail(found.error);
      }
      var bird := found.value;
      var sts := States(pipes.pipes);
      ghost var s0 := bird.State();
      var collided := HitsAny(bird.rect, sts);
      if collided || bird.rect.top < 0 {
        gameIsOver := true;
        done := true;
        bird.visible := false;
      }
      ghost var s1 := if collided || s0.rect.top < 0 then s0.(visible := false) else s0;
      assert bird.State() == s1;
      if bird.rect.Bottom() >= FloorLevel {
        gameIsOver := true;
        done := true;
        bird.flying := false;
        bird.visible := false;
      }
      assert bird.State() == Collided(s0, collided);
      assert States(pipes.pipes) == sts;
      r := Pass;
    }

    /** `generate_pipes`: while the game is on and the bird flies, a pair is added
        once enough time has passed, and the road scrolls. `spawned` names the new
        pipes. */
    method GeneratePipes(host: Host) returns (r: Outcome, ghost spawned: seq<Pipe>)
      modifies this`leftmostPipe, this`roadScroll, pipes
      ensures BirdOf(groups).None? ==>
        r == Fail(KeyError("bird")) && spawned == [] &&
        pipes.pipes == old(pipes.pipes) && leftmostPipe == old(leftmostPipe) && roadScroll == old(roadScroll)
      ensures BirdOf(groups).Some? ==>
        var on := !gameIsOver && BirdOf(groups).value.flying;
        var spawn := Spawns(gameIsOver, BirdOf(groups).value.flying, host.ticks, old(leftmostPipe));
        r == Pass &&
        leftmostPipe == (if spawn then host.ticks else old(leftmostPipe)) &&
        roadScroll == (if on then ScrollStep(old(roadScroll)) else old(roadScroll)) &&
        |spawned| == (if spawn then 2 else 0) && pipes.pipes == old(pipes.pipes) + spawned &&
        (forall p :: p in spawned ==> fresh(p)) &&
        (spawn ==> States(spawned) == SpawnStates(host.pipeOffset, pipeImage))
    {
      spawned := [];
      var found := BirdNamed(groups);
      if found.Err? {
        return Fail(found.error), [];
      }
      if !gameIsOver && found.value.flying {
        spawned := SpawnIfDue(host);
        roadScroll := ScrollStep(roadScroll);
      }
      r := Pass;
    }

    /** The spawning part of `generate_pipes`: a pair "down" then "up" once more
        than `pipe_freq` ms have passed since the last one. */
    method SpawnIfDue(host: Host) returns (ghost spawned: seq<Pipe>)
      modifies this`leftmostPipe, pipes
      ensures var spawn := host.ticks - old(leftmostPipe) > PipeFreq;
        leftmostPipe == (if spawn then host.ticks else old(leftmostPipe)) &&
        |spawned| == (if spawn then 2 else 0) && pipes.pipes == old(pipes.pipes) + spawned &&
        (forall p :: p in spawned ==> fresh(p)) &&
        (spawn ==> States(spawned) == SpawnStates(host.pipeOffset, pipeImage))
    {
      spawned := [];
      var currentTime := host.ticks;
      if currentTime - leftmostPipe > PipeFreq {
        var y := PairY(host.pipeOffset);
        // The two literal directions are the valid ones of `ParseDirection`.
        var down := new Pipe(Point(ScreenW, y), Down, GapBtwPipes, ScrollSpeed, pipeImage);
        var up := new Pipe(Point(ScreenW, y), Up, GapBtwPipes, ScrollSpeed, pipeImage);
        pipes.Add([down, up]);
        spawned := [down, up];
        leftmostPipe := currentTime;
      }
    }
  }

  /** `Flying(cfg=None)` raises `ValueError`. */
  method NewFlying(cfg: Option<Config>, nextState: Option<string>, ticks: int) returns (r: Result<Flying>)
    ensures cfg.None? <==> r.Err?
    ensures r.Err? ==> r.error == ValueError("cfg argument can't be None")
    ensures r.Ok? ==> fresh(r.value) && fresh(r.value.pipes) && fresh(r.value.scoreText)
    ensures r.Ok? ==> r.value.Valid() && !r.value.done && r.value.nextState == nextState
  {
    if cfg.None? {
      return Err(ValueError("cfg argument can't be None"));
    }
    var scene := new Flying(cfg.value, nextState, ticks);
    r := Ok(scene);
  }
}
