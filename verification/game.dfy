/** The scene machine (`game.py`): one active scene out of a fixed map of scene
    instances, the forwarding of events to it, and the flip from a finished scene
    to its successor, which receives the groups the old scene hands over. */
module GameMachine {
  import opened Geometry
  import opened Common
  import opened BirdSprite
  import opened PipeSprite
  import opened Widgets
  import opened SceneBase
  import opened Settings
  import opened StartScene
  import opened FlyingScene
  import opened GameOverScene

  /** Which of the three scene instances a key of `states` denotes. */
  datatype SceneId = StartId | FlyingId | GameOverId

  /** What an entry hook starts from: the dict handed over, the dicts the Flying and
      game-over scenes hold, the bird's state and the states of the pipes. */
  datatype Arrival = Arrival(handoff: GroupMap, flyingGroups: GroupMap, gameOverGroups: GroupMap,
                             bird: BirdState, pipes: seq<PipeState>)

  /** Whether handling `e` makes the scene `id` done: the start button on the
      start screen, the restart button on the game-over screen, and nothing in the
      Flying scene, whose `handle_event` is the base one. */
  predicate Finishes(id: SceneId, e: Event)
  {
    match id
    case StartId => ReactionTo(e) == Finish
    case FlyingId => false
    case GameOverId => e == ButtonPressed("restart")
  }

  /** Whether one of `events` makes the scene `id` done. */
  predicate FinishesAny(id: SceneId, events: seq<Event>)
  {
    exists k :: 0 <= k < |events| && Finishes(id, events[k])
  }

  /** One more event: the prefix up to it finishes the scene iff the shorter
      prefix does or the event does; and it is Quit iff it is among them. */
  lemma FinishesAnySnoc(id: SceneId, events: seq<Event>, i: nat)
    requires i < |events|
    ensures FinishesAny(id, events[..i + 1]) == (FinishesAny(id, events[..i]) || Finishes(id, events[i]))
    ensures (Quit in events[..i + 1]) == (Quit in events[..i] || events[i] == Quit)
  {
    assert events[..i + 1] == events[..i] + [events[i]];
    if FinishesAny(id, events[..i + 1]) && !Finishes(id, events[i]) {
      var k :| 0 <= k < i + 1 && Finishes(id, events[..i + 1][k]);
      assert events[..i][k] == events[k];
    }
    if FinishesAny(id, events[..i]) {
      var k :| 0 <= k < i && Finishes(id, events[..i][k]);
      assert events[..i + 1][k] == events[k];
    }
    if Finishes(id, events[i]) {
      assert events[..i + 1][i] == events[i];
    }
  }

  /** The bird and the pipe group of a dict, if any, are the given ones. */
  ghost predicate SharedOnly(m: GroupMap, bird: Bird, pipes: PipeGroup)
  {
    (BirdOf(m).Some? ==> BirdOf(m).value == bird) &&
    (PipesOf(m).Some? ==> PipesOf(m).value == pipes)
  }

  /** The three scenes are in shape, and the bird of the start screen and the pipe
      group of the Flying scene are the only bird and pipe group any scene holds:
      groups are handed on by reference and never copied. */
  ghost predicate Wired(start: StartScreen, flying: Flying, gameOver: GameOver)
    reads flying`groups, gameOver`groups
  {
    start.Valid() && Linked(start.bird, flying, gameOver)
  }

  /** The part of `Wired` that the Flying and game-over scenes can change. */
  ghost predicate Linked(bird: Bird, flying: Flying, gameOver: GameOver)
    reads flying`groups, gameOver`groups
  {
    flying.Valid() && gameOver.Valid() &&
    SharedOnly(flying.groups, bird, flying.pipes) &&
    SharedOnly(gameOver.groups, bird, flying.pipes)
  }

  /** A dict made of entries of two dicts holds no other bird or pipe group than they do. */
  lemma SharedFrom(r: GroupMap, m: GroupMap, h: GroupMap, bird: Bird, pipes: PipeGroup)
    requires OnePerKind(r) && OnePerKind(m) && OnePerKind(h)
    requires forall e :: e in r ==> e in m || e in h
    requires SharedOnly(m, bird, pipes) && SharedOnly(h, bird, pipes)
    ensures SharedOnly(r, bird, pipes)
  {
    if BirdOf(r).Some? {
      SharedEntry(r[KindIndex(r, 0)], m, h);
    }
    if PipesOf(r).Some? {
      SharedEntry(r[KindIndex(r, 1)], m, h);
    }
  }

  /** An entry of one of two dicts is the first of its kind in that dict. */
  lemma SharedEntry(e: Entry, m: GroupMap, h: GroupMap)
    requires OnePerKind(m) && OnePerKind(h) && (e in m || e in h)
    ensures e in m ==> m[KindIndex(m, e.group.Kind())] == e
    ensures e in h ==> h[KindIndex(h, e.group.Kind())] == e
  {
    if e in m {
      var j :| 0 <= j < |m| && m[j] == e;
      KindFound(m, j);
    }
    if e in h {
      var j :| 0 <= j < |h| && h[j] == e;
      KindFound(h, j);
    }
  }

  class Game {
    var running: bool
    /** The scene map; it is never changed, a flip only changes `current`. */
    const states: map<string, SceneId>
    var current: SceneId
    /** The events the scenes have posted to pygame's queue, oldest first. */
    var outbox: seq<Event>
    const start: StartScreen
    const flying: Flying
    const gameOver: GameOver

    ghost predicate Valid()
      reads flying`groups, gameOver`groups
    {
      Wired(start, flying, gameOver)
    }

    function DoneOf(id: SceneId): bool
      reads start`done, flying`done, gameOver`done
    {
      match id
      case StartId => start.done
      case FlyingId => flying.done
      case GameOverId => gameOver.done
    }

    function NextOf(id: SceneId): Option<string>
    {
      match id
      case StartId => start.nextState
      case FlyingId => flying.nextState
      case GameOverId => gameOver.nextState
    }

    /** The dict the scene `id` hands over on exit. */
    function GroupsOf(id: SceneId): GroupMap
      reads flying`groups, gameOver`groups
    {
      match id
      case StartId => start.groups
      case FlyingId => flying.groups
      case GameOverId => gameOver.groups
    }

    /** How the exit hook of the scene `id` ends: only the game-over scene's can
        raise, when its dict lacks the bird or the pipes. */
    ghost function ExitOutcome(id: SceneId): Outcome
      reads gameOver`groups
    {
      if id != GameOverId then Pass
      else if BirdOf(gameOver.groups).None? then Fail(KeyError("bird"))
      else if PipesOf(gameOver.groups).None? then Fail(KeyError("pipes"))
      else Pass
    }

    /** The start screen's skin, the stamps of its buttons and the queue. */
    function StartOf(): (v: StartView)
      reads this`outbox, start.bird`images, start.buttons`wasPressedOnNs
      ensures |v.stamps| == |start.buttons|
    {
      StartView(start.bird.images, Stamps(start.buttons), outbox)
    }

    /** What the entry hook of the scene `id` did, ending with `r`, starting from
        `a`: the start screen's hook does nothing; the Flying scene's starts a new
        round and sets the handoff's bird flying, leaving the rest of its state
        alone; the game-over scene's carries groups over and, once they are all
        there, freezes the pipes with a speed-0 update. */
    ghost predicate Entered(id: SceneId, a: Arrival, r: Outcome)
      reads flying`score, flying`gameIsOver, flying`roadScroll, flying`groups, flying.pipes`pipes,
        PipeObjects(flying.pipes.pipes), start.bird, gameOver`groups
    {
      match id
      case StartId => r == Pass && start.bird.State() == a.bird
      case FlyingId =>
        UniqueNames(a.flyingGroups) && (flying.groups, r) == EnterRound(a.flyingGroups, a.handoff) &&
        flying.score == 0 && !flying.gameIsOver && flying.roadScroll == 0 && flying.pipes.pipes == [] &&
        start.bird.State() == (if BirdOf(a.handoff).Some? then a.bird.(flying := true) else a.bird)
      case GameOverId =>
        UniqueNames(a.gameOverGroups) &&
        (gameOver.groups, r) == EnterGroups(a.gameOverGroups, a.handoff, gameOver.carried) &&
        start.bird.State() == a.bird &&
        States(flying.pipes.pipes) == (if r == Pass then StepAll(a.pipes, Some(0)) else a.pipes)
    }

    /** What an entry hook receiving `handoff` starts from, as things are now. */
    ghost function ArrivalOf(handoff: GroupMap): Arrival
      reads flying`groups, gameOver`groups, start.bird, flying.pipes`pipes, PipeObjects(flying.pipes.pipes)
    {
      Arrival(handoff, flying.groups, gameOver.groups, start.bird.State(), States(flying.pipes.pipes))
    }

    /** What the entry hook of the next scene starts from once the exit hook of the
        active scene has passed: its dict, with the bird reset and the pipes
        removed when the active scene is the game-over scene. */
    ghost function Departing(): Arrival
      reads this`current, flying`groups, gameOver`groups, start.bird, flying.pipes`pipes,
        PipeObjects(flying.pipes.pipes)
    {
      if current == GameOverId then
        Arrival(gameOver.groups, flying.groups, gameOver.groups,
                Restored(start.bird.State(), start.bird.initialPos), [])
      else ArrivalOf(GroupsOf(current))
    }

    /** `Game(screen, states, start_state, cfg)` once `states[start_state]` is known
        to exist; the screen, the clock, the background and the music are left out. */
    constructor (states: map<string, SceneId>, startState: string,
                 start: StartScreen, flying: Flying, gameOver: GameOver)
      requires startState in states && Wired(start, flying, gameOver)
      ensures Valid() && running && outbox == []
      ensures this.states == states && current == states[startState]
      ensures this.start == start && this.flying == flying && this.gameOver == gameOver
    {
      running := true;
      this.states := states;
      current := states[startState];
      outbox := [];
      this.start := start;
      this.flying := flying;
      this.gameOver := gameOver;
    }

    /** `handle_events`: each event in turn, QUIT included, goes to the active
        scene; QUIT also stops the game. `edits[k]` is what the skin editor returns
        if `events[k]` opens it. */
    method HandleEvents(events: seq<Event>, edits: seq<Option<Surface>>, host: Host)
      requires Valid() && |edits| == |events|
      modifies this`running, this`outbox, start`done, start.bird`images, ButtonObjects(start.buttons), gameOver`done
      ensures Valid() && current == old(current)
      ensures running == (old(running) && Quit !in events)
      ensures DoneOf(current) == (old(DoneOf(current)) || FinishesAny(current, events))
      ensures current == StartId ==>
        StartOf() == Reacted(start.buttons, start.bird.initialImages, old(StartOf()), events, edits, host)
      ensures current != StartId ==> StartOf() == old(StartOf())
    {
      HandleAll(events, edits, host);
    }

    /** The loop of `handle_events`. */
    method HandleAll(events: seq<Event>, edits: seq<Option<Surface>>, host: Host)
      requires start.Valid() && |edits| == |events|
      modifies this`running, this`outbox, start`done, start.bird`images, ButtonObjects(start.buttons), gameOver`done
      ensures running == (old(running) && Quit !in events)
      ensures DoneOf(current) == (old(DoneOf(current)) || FinishesAny(current, events))
      ensures current == StartId ==>
        StartOf() == Reacted(start.buttons, start.bird.initialImages, old(StartOf()), events, edits, host)
      ensures current != StartId ==> StartOf() == old(StartOf())
    {
      ghost var running0, done0, v0 := running, DoneOf(current), StartOf();
      for i := 0 to |events|
        invariant start.Valid() && Handled(events[..i], edits[..i], host, running0, done0, v0)
      {
        HandleNext(events, edits, host, i, running0, done0, v0);
      }
      assert events[..|events|] == events && edits[..|edits|] == edits;
    }

    /** The state after the active scene has handled `events`, from the given running flag,
        done flag of the active scene and view of the start screen. */
    ghost predicate Handled(events: seq<Event>, edits: seq<Option<Surface>>, host: Host,
        running0: bool, done0: bool, v0: StartView)
      reads this`running, this`current, this`outbox, start`done, flying`done, gameOver`done,
        start.bird`images, start.buttons`wasPressedOnNs
    {
      running == (running0 && Quit !in events) &&
      DoneOf(current) == (done0 || FinishesAny(current, events)) &&
      |v0.stamps| == |start.buttons| && |edits| == |events| &&
      (current == StartId ==> StartOf() == Reacted(start.buttons, start.bird.initialImages, v0, events, edits, host)) &&
      (current != StartId ==> StartOf() == v0)
    }

    /** The body of the loop of `handle_events`. */
    method HandleNext(events: seq<Event>, edits: seq<Option<Surface>>, host: Host, i: nat,
        ghost running0: bool, ghost done0: bool, ghost v0: StartView)
      requires i < |events| == |edits|
      requires start.Valid() && Handled(events[..i], edits[..i], host, running0, done0, v0)
      modifies this`running, this`outbox, start`done, start.bird`images, ButtonObjects(start.buttons), gameOver`done
      ensures Handled(events[..i + 1], edits[..i + 1], host, running0, done0, v0)
    {
      Forward(events[i], edits[i], host);
      FinishesAnySnoc(current, events, i);
      assert events[..i + 1][..i] == events[..i] && edits[..i + 1][..i] == edits[..i];
    }

    /** One event of `handle_events`. */
    method Forward(e: Event, edited: Option<Surface>, host: Host)
      requires start.Valid()
      modifies this`running, this`outbox, start`done, start.bird`images, ButtonObjects(start.buttons), gameOver`done
      ensures running == (old(running) && e != Quit)
      ensures DoneOf(current) == (old(DoneOf(current)) || Finishes(current, e))
      ensures current == StartId ==>
        StartOf() == React(start.buttons, start.bird.initialImages, old(StartOf()), e, edited, host)
      ensures current != StartId ==> StartOf() == old(StartOf())
    {
      if e == Quit {
        running := false;
      }
      match current
      case StartId =>
        ForwardStart(e, edited, host);
      case FlyingId =>
      case GameOverId =>
        gameOver.HandleEvent(e);
    }

    /** An event for the start screen; what it posts joins the queue. */
    method ForwardStart(e: Event, edited: Option<Surface>, host: Host)
      requires start.Valid()
      modifies this`outbox, start`done, start.bird`images, ButtonObjects(start.buttons)
      ensures start.done == (old(start.done) || Finishes(StartId, e))
      ensures StartOf() == React(start.buttons, start.bird.initialImages, old(StartOf()), e, edited, host)
    {
      ghost var v := StartOf();
      var posted := start.HandleEvent(e, edited, host);
      ReactAfter(start.buttons, start.bird.initialImages, v, e, edited, host);
      outbox := outbox + posted;
    }

    /** `flip_state`. Without a next state only a warning is logged: nothing
        changes and the scene stays done, so the flip is tried again next frame.
        Otherwise the scene's `done` is cleared, its exit hook hands over its dict,
        the next scene is looked up (`KeyError` for an unknown name) and becomes
        active, and its entry hook receives that dict. An exception ends the flip
        where it is raised. */
    method FlipState() returns (r: Outcome)
      requires Valid()
      modifies this`current, start`done, flying, gameOver, start.bird, flying.pipes, PipeObjects(flying.pipes.pipes)
      ensures Valid()
      ensures flying.pipes.pipes == old(flying.pipes.pipes) || flying.pipes.pipes == []
      ensures NextOf(old(current)).None? ==>
        r == Pass && current == old(current) && unchanged(start, flying, gameOver)
      ensures NextOf(old(current)).Some? ==> !DoneOf(old(current))
      ensures NextOf(old(current)).Some? && old(ExitOutcome(current)).Fail? ==>
        r == old(ExitOutcome(current)) && current == old(current)
      ensures NextOf(old(current)).Some? && old(ExitOutcome(current)).Pass? ==>
        var next := NextOf(old(current)).value;
        (next !in states ==> r == Fail(KeyError(next)) && current == old(current)) &&
        (next in states ==> current == states[next])
      ensures NextOf(old(current)).Some? && old(ExitOutcome(current)).Pass? && NextOf(old(current)).value in states ==>
        Entered(states[NextOf(old(current)).value], old(Departing()), r)
      ensures old(current) == GameOverId && r == Pass && current == StartId ==>
        start.bird.State() == Initial(start.bird.initialPos, start.bird.images)
    {
      var next := NextOf(current);
      if next.None? {
        return Pass;
      }
      r := FlipTo(next.value);
    }

    /** The flip once the active scene names a next state: the active scene is
        left, the next one is looked up (`KeyError` for an unknown name) and
        entered. */
    method FlipTo(next: string) returns (r: Outcome)
      requires Valid() && NextOf(current) == Some(next)
      modifies this`current, start`done, flying, gameOver, start.bird, flying.pipes, PipeObjects(flying.pipes.pipes)
      ensures Valid()
      ensures flying.pipes.pipes == old(flying.pipes.pipes) || flying.pipes.pipes == []
      ensures !DoneOf(old(current))
      ensures old(ExitOutcome(current)).Fail? ==> r == old(ExitOutcome(current)) && current == old(current)
      ensures old(ExitOutcome(current)).Pass? ==>
        (next !in states ==> r == Fail(KeyError(next)) && current == old(current)) &&
        (next in states ==> current == states[next])
      ensures old(ExitOutcome(current)).Pass? && next in states ==>
        Entered(states[next], old(Departing()), r)
      ensures old(current) == GameOverId && r == Pass && current == StartId ==>
        start.bird.State() == Initial(start.bird.initialPos, start.bird.images)
    {
      ghost var exited := current;
      var handoff;
      handoff, r := Leave();
      if r.Fail? {
        return;
      }
      if next !in states {
        return Fail(KeyError(next));
      }
      ghost var bird := start.bird.State();
      r := Activate(states[next], handoff);
      if exited == GameOverId && current == StartId {
        ResetIsInitial(bird, start.bird.initialPos);
      }
    }

    /** The first half of a flip: the active scene is no longer done and its exit
        hook hands over its dict. */
    method Leave() returns (handoff: GroupMap, r: Outcome)
      requires Valid()
      modifies start`done, flying`done, gameOver`done, start.bird, flying.pipes
      ensures Valid() && !DoneOf(current)
      ensures Kinded(handoff) && SharedOnly(handoff, start.bird, flying.pipes)
      ensures r == old(ExitOutcome(current))
      ensures flying.pipes.pipes == old(flying.pipes.pipes) || flying.pipes.pipes == []
      ensures r == Pass ==> ArrivalOf(handoff) == old(Departing())
    {
      ClearDone(current);
      handoff, r := ExitCurrent();
    }

    /** The second half of a flip: the scene `id` becomes active and its entry
        hook receives the handoff. */
    method Activate(id: SceneId, handoff: GroupMap) returns (r: Outcome)
      requires Valid() && Kinded(handoff) && SharedOnly(handoff, start.bird, flying.pipes)
      modifies this`current, flying`score, flying`gameIsOver, flying`roadScroll, flying`groups, flying.pipes,
        start.bird, gameOver`groups, PipeObjects(flying.pipes.pipes)
      ensures Valid() && current == id
      ensures unchanged(start`done, flying`done, gameOver`done)
      ensures flying.pipes.pipes == old(flying.pipes.pipes) || flying.pipes.pipes == []
      ensures id == StartId ==> start.bird.State() == old(start.bird.State())
      ensures Entered(id, old(ArrivalOf(handoff)), r)
    {
      ghost var a := ArrivalOf(handoff);
      current := id;
      assert ArrivalOf(handoff) == a;
      r := EnterCurrent(handoff);
    }

    /** `done = False` on the scene `id`. */
    method ClearDone(id: SceneId)
      modifies start`done, flying`done, gameOver`done
      ensures !DoneOf(id)
      ensures Valid() == old(Valid()) && GroupsOf(current) == old(GroupsOf(current))
      ensures Departing() == old(Departing()) && ExitOutcome(current) == old(ExitOutcome(current))
    {
      match id
      case StartId => start.done := false;
      case FlyingId => flying.done := false;
      case GameOverId => gameOver.done := false;
    }

    /** `on_exit` of the active scene: its own dict. The game-over scene first
        resets the bird and removes the pipes. */
    method ExitCurrent() returns (handoff: GroupMap, r: Outcome)
      requires Valid()
      modifies start.bird, flying.pipes
      ensures Valid() && handoff == GroupsOf(current)
      ensures Kinded(handoff) && SharedOnly(handoff, start.bird, flying.pipes)
      ensures r == old(ExitOutcome(current))
      ensures current != GameOverId || r.Fail? ==> flying.pipes.pipes == old(flying.pipes.pipes)
      ensures current != GameOverId ==> unchanged(start.bird, flying.pipes)
      ensures current == GameOverId && r == Pass ==>
        start.bird.State() == Restored(old(start.bird.State()), start.bird.initialPos) &&
        flying.pipes.pipes == []
      ensures r == Pass ==> ArrivalOf(handoff) == old(Departing())
    {
      ghost var fg, gg := flying.groups, gameOver.groups;
      match current
      case StartId =>
        handoff := start.OnExit();
        r := Pass;
      case FlyingId =>
        FlyingPipesOf(flying.groups, flying.pipes, flying.scoreText);
        handoff := flying.OnExit();
        r := Pass;
      case GameOverId =>
        r := ExitGameOver();
        handoff := gameOver.groups;
      assert flying.groups == fg && gameOver.groups == gg;
    }

    /** `on_exit` of the game-over scene, on the shared bird and pipe group. */
    method ExitGameOver() returns (r: Outcome)
      requires SharedOnly(gameOver.groups, start.bird, flying.pipes)
      modifies start.bird, flying.pipes
      ensures r == old(ExitOutcome(GameOverId))
      ensures r.Fail? ==> flying.pipes.pipes == old(flying.pipes.pipes)
      ensures r == Pass ==>
        start.bird.State() == Restored(old(start.bird.State()), start.bird.initialPos) &&
        flying.pipes.pipes == []
    {
      r := gameOver.OnExit();
    }

    /** `on_enter` of the (new) active scene with the dict the old one handed over. */
    method EnterCurrent(handoff: GroupMap) returns (r: Outcome)
      requires Linked(start.bird, flying, gameOver) && Kinded(handoff) && SharedOnly(handoff, start.bird, flying.pipes)
      modifies flying`score, flying`gameIsOver, flying`roadScroll, flying`groups, flying.pipes, start.bird,
        gameOver`groups, PipeObjects(flying.pipes.pipes)
      ensures Linked(start.bird, flying, gameOver)
      ensures unchanged(start`done, flying`done, gameOver`done)
      ensures flying.pipes.pipes == old(flying.pipes.pipes) || flying.pipes.pipes == []
      ensures current == StartId ==> unchanged(start.bird)
      ensures Entered(current, old(ArrivalOf(handoff)), r)
    {
      ghost var id, fg, gg := current, flying.groups, gameOver.groups;
      match current
      case StartId =>
        r := start.OnEnter(handoff);
      case FlyingId =>
        r := EnterFlying(handoff);
        assert gameOver.groups == gg;
      case GameOverId =>
        r := EnterGameOver(handoff);
        assert flying.groups == fg;
      assert current == id;
    }

    /** `on_enter` of the Flying scene, which takes the shared bird. */
    method EnterFlying(handoff: GroupMap) returns (r: Outcome)
      requires flying.Valid() && SharedOnly(flying.groups, start.bird, flying.pipes)
      requires Kinded(handoff) && SharedOnly(handoff, start.bird, flying.pipes)
      modifies flying`score, flying`gameIsOver, flying`roadScroll, flying`groups, flying.pipes, start.bird
      ensures flying.Valid() && SharedOnly(flying.groups, start.bird, flying.pipes) && flying.pipes.pipes == []
      ensures unchanged(start`done, flying`done, gameOver`done)
      ensures Entered(FlyingId, old(ArrivalOf(handoff)), r)
      ensures r == Pass ==>
        Lookup(flying.groups, "bird") == Lookup(handoff, "bird") &&
        Lookup(flying.groups, "road") == Lookup(handoff, "road")
    {
      KindedBird(handoff);
      r := flying.OnEnter(handoff);
      FlyingPipesOf(flying.groups, flying.pipes, flying.scoreText);
      KindedBird(flying.groups);
    }

    /** `on_enter` of the game-over scene, which takes the shared bird and pipes. */
    method EnterGameOver(handoff: GroupMap) returns (r: Outcome)
      requires gameOver.Valid() && SharedOnly(gameOver.groups, start.bird, flying.pipes)
      requires Kinded(handoff) && SharedOnly(handoff, start.bird, flying.pipes)
      modifies gameOver`groups, flying.pipes, PipeObjects(flying.pipes.pipes)
      ensures gameOver.Valid() && SharedOnly(gameOver.groups, start.bird, flying.pipes)
      ensures unchanged(start`done, flying`done, gameOver`done)
      ensures flying.pipes.pipes == old(flying.pipes.pipes)
      ensures Entered(GameOverId, old(ArrivalOf(handoff)), r)
    {
      ghost var m := gameOver.groups;
      EnterFrom(m, gameOver.girl, gameOver.restartButton, handoff, gameOver.carried);
      r := gameOver.OnEnter(handoff);
      KindedOnePerKind(m);
      KindedOnePerKind(handoff);
      KindedOnePerKind(gameOver.groups);
      SharedFrom(gameOver.groups, m, handoff, start.bird, flying.pipes);
    }

    /** `update_state`: a done scene is flipped first, then whichever scene is
        active afterwards is updated, so a new scene has its first update in the
        frame it starts. The events the update posts join the queue. */
    method UpdateState(host: Host) returns (r: Outcome)
      requires Valid()
      modifies this`current, this`outbox, start`done, flying, gameOver, start.bird, flying.pipes, flying.scoreText,
        gameOver.restartButton, ButtonObjects(start.buttons), PipeObjects(flying.pipes.pipes)
      ensures Valid()
      ensures !old(DoneOf(current)) ==> current == old(current)
      ensures old(DoneOf(current)) && NextOf(old(current)).None? ==> current == old(current)
      ensures old(DoneOf(current)) && NextOf(old(current)).Some? && old(ExitOutcome(current)).Pass? ==>
        var next := NextOf(old(current)).value;
        (next !in states ==> r == Fail(KeyError(next)) && current == old(current)) &&
        (next in states ==> current == states[next])
    {
      r := FlipIfDone();
      if r.Fail? {
        return;
      }
      r := UpdateCurrent(host);
    }

    /** The first line of `update_state`: a done scene is flipped. */
    method FlipIfDone() returns (r: Outcome)
      requires Valid()
      modifies this`current, start`done, flying, gameOver, start.bird, flying.pipes, PipeObjects(flying.pipes.pipes)
      ensures Valid()
      ensures flying.pipes.pipes == old(flying.pipes.pipes) || flying.pipes.pipes == []
      ensures !old(DoneOf(current)) ==> r == Pass && current == old(current)
      ensures old(DoneOf(current)) && NextOf(old(current)).None? ==> r == Pass && current == old(current)
      ensures old(DoneOf(current)) && NextOf(old(current)).Some? && old(ExitOutcome(current)).Pass? ==>
        var next := NextOf(old(current)).value;
        (next !in states ==> r == Fail(KeyError(next)) && current == old(current)) &&
        (next in states ==> current == states[next])
    {
      r := Pass;
      if DoneOf(current) {
        r := FlipState();
      }
    }

    /** `update` of the active scene; the events it posts join the queue. */
    method UpdateCurrent(host: Host) returns (r: Outcome)
      requires Valid()
      modifies this`outbox, flying, start.bird, flying.pipes, flying.scoreText, gameOver.restartButton,
        ButtonObjects(start.buttons), PipeObjects(flying.pipes.pipes)
      ensures Valid()
    {
      var posted: seq<Event>;
      match current
      case StartId =>
        posted := UpdateStart(host);
        r := Pass;
      case FlyingId =>
        ghost var spawned;
        r, posted, spawned := UpdateFlying(host);
      case GameOverId =>
        posted := UpdateGameOver(host);
        r := Pass;
      outbox := outbox + posted;
    }

    /** `update` of the start screen: the bird steps and every button is updated. */
    method UpdateStart(host: Host) returns (posted: seq<Event>)
      requires Valid()
      modifies start.bird, ButtonObjects(start.buttons)
      ensures flying.groups == old(flying.groups) && gameOver.groups == old(gameOver.groups)
      ensures start.bird.State() == Step(old(start.bird.State()), host.leftHeld)
      ensures Stamps(start.buttons) == Pressed(start.buttons, old(Stamps(start.buttons)), host)
      ensures posted == ButtonPosts(start.buttons, old(Stamps(start.buttons)), host)
    {
      assert flying !in ButtonObjects(start.buttons) && gameOver !in ButtonObjects(start.buttons);
      posted := start.Update(host);
    }

    /** `update` of the Flying scene: one frame of the round. */
    method UpdateFlying(host: Host) returns (r: Outcome, posted: seq<Event>, ghost spawned: seq<Pipe>)
      requires Valid()
      modifies flying, start.bird, flying.pipes, flying.scoreText, PipeObjects(flying.pipes.pipes)
      ensures flying.groups == old(flying.groups) && gameOver.groups == old(gameOver.groups)
      ensures BirdOf(flying.groups).None? ==> r == Fail(KeyError("bird"))
      ensures BirdOf(flying.groups).Some? ==>
        var b := BirdOf(flying.groups).value;
        var ps0 := old(flying.pipes.pipes);
        var sts0 := old(States(flying.pipes.pipes));
        var ps1 := ps0 + spawned;
        var spawn := SpawnsIn(old(flying.ViewWith(b)), sts0, host);
        r == Pass && posted == [] &&
        flying.ViewWith(b) == Frame(old(flying.ViewWith(b)), ps0, sts0, host) &&
        |spawned| == (if spawn then 2 else 0) && (forall p :: p in spawned ==> fresh(p)) &&
        States(ps1) == StepAll(sts0 + (if spawn then SpawnStates(host.pipeOffset, flying.pipeImage) else []), None) &&
        flying.pipes.pipes == Kept(ps1, States(ps1))
    {
      r, posted, spawned := flying.Update(host);
    }

    /** `update` of the game-over scene: the base update over its bird, pipes and
        restart button. */
    method UpdateGameOver(host: Host) returns (posted: seq<Event>)
      requires Valid()
      modifies start.bird, flying.pipes, gameOver.restartButton, PipeObjects(flying.pipes.pipes)
      ensures flying.groups == old(flying.groups) && gameOver.groups == old(gameOver.groups)
      ensures BirdOf(gameOver.groups).Some? ==>
        start.bird.State() == Step(old(start.bird.State()), host.leftHeld)
      ensures PipesOf(gameOver.groups).Some? ==> var ps := old(flying.pipes.pipes);
        States(ps) == StepAll(old(States(ps)), None) && flying.pipes.pipes == Kept(ps, States(ps))
      ensures Stamps(ButtonsOf(gameOver.groups)) ==
        Pressed(ButtonsOf(gameOver.groups), old(Stamps(ButtonsOf(gameOver.groups))), host)
      ensures posted == ButtonPosts(ButtonsOf(gameOver.groups), old(Stamps(ButtonsOf(gameOver.groups))), host)
    {
      GameOverButtons(gameOver.groups, gameOver.girl, gameOver.restartButton);
      assert flying !in MutableIn(gameOver.groups) && gameOver !in MutableIn(gameOver.groups);
      posted := gameOver.Update(host);
    }
  }

  /** `Game(...)` with `states[start_state]` raising `KeyError` for an unknown name. */
  method NewGame(states: map<string, SceneId>, startState: string,
                 start: StartScreen, flying: Flying, gameOver: GameOver) returns (r: Result<Game>)
    requires Wired(start, flying, gameOver)
    ensures startState !in states <==> r.Err?
    ensures r.Err? ==> r.error == KeyError(startState)
    ensures r.Ok? ==> fresh(r.value) && r.value.Valid() && r.value.running
    ensures r.Ok? ==> r.value.states == states && r.value.current == states[startState]
  {
    if startState !in states {
      return Err(KeyError(startState));
    }
    var g := new Game(states, startState, start, flying, gameOver);
    r := Ok(g);
  }

  /** The game as the factory wires it: the start screen leads to Flying, Flying
      to GameOver and GameOver back to the start screen, and the start screen is
      active first. */
  method NewChillyBird(cfg: Config, ticks: int, clockNs: int) returns (g: Game)
    ensures fresh(g) && g.Valid() && g.running && g.outbox == [] && g.current == StartId
    ensures g.states == map["Start" := StartId, "Flying" := FlyingId, "GameOver" := GameOverId]
    ensures g.start.nextState == Some("Flying") && g.flying.nextState == Some("GameOver") &&
      g.gameOver.nextState == Some("Start")
  {
    var start := new StartScreen(cfg, Some("Flying"), clockNs);
    var flying := new Flying(cfg, Some("GameOver"), ticks);
    FreshFlyingGroups(flying.pipes, flying.scoreText);
    var gameOver := new GameOver(cfg, Some("Start"), clockNs);
    FreshGameOverGroups(gameOver.girl, gameOver.restartButton);
    g := new Game(map["Start" := StartId, "Flying" := FlyingId, "GameOver" := GameOverId], "Start",
                  start, flying, gameOver);
  }
}
